# DynTree: FT-sensor projection, engine state and subgraph tables

A Dafny model of the core of `DynTree.h`, the header of the iDynTree
dynamics engine of the CoDyCo modules. It covers three things.

- **FTSensor.** An internal force/torque sensor sits on a fixed (zero-DOF)
  joint between a parent link and a child link. `getWrenchExcertedOnSubGraph`
  projects the sensor's measurement onto one side of that cut. For the parent
  it applies `H_parent_sensor`. For the child it also applies the fixed
  child-from-parent pose. Frames and wrenches are abstract types, grouped in a
  `SpatialAlgebra` record with identity, composition and action. The
  `Lawful` predicate states the two usual laws: the identity acts trivially
  and the action is compatible with composition. Lemmas that need the laws
  take `Lawful(alg)` as a hypothesis. `PlanarFrames.PlanarIsLawful` proves the
  laws for a planar instance (quarter-turn rotations with integer
  translations), so the hypothesis can be met. The result that needs the laws
  is `FTSensors.ChildSideAgreesWithH_child_sensor`: projecting onto the child
  equals applying `getH_child_sensor()` to the raw measurement. The parent- and
  child-side lemmas state the two documented projection formulas.
- **Engine state.** `DynTrees.DynTree` is a class. The joint arrays `q`, `dq`,
  `ddq`, the limits `q_min`, `q_max`, the `constrained` mask and the measured
  wrenches are Dafny arrays owned by the engine. Only `q`, `dq`, `ddq` and the
  measured wrenches are updated in place; the limits and the mask are fixed at
  construction. The topology is fixed at
  construction: serialisation names, partition, kinematic and dynamic
  traversals, and FT-sensor joint names. `setAng` applies the limit rule DOF by
  DOF. The name and part lookups return an in-range index or -1.
- **Dynamic subgraphs.** The dynamic traversal is cut at every FT-sensor
  joint. `buildSubGraphStructure` fills three tables from the pieces:
  `link2subgraph_index`, `link_is_subgraph_root` and
  `subgraph_index2root_link`. The model proves the tables consistent with each
  other. A link is a root exactly when it is the base or hangs from a sensor
  joint. Every other link shares its parent's subgraph, and subgraph 0 is the
  base's.

Files: `spatial_algebra.dfy` (abstract algebra and planar instance),
`tree_graph.dfy` (the tree graph an FT sensor queries), `ft_sensor.dfy`,
`sequences.dfy` (search, counting, scatter/gather), `joint_limits.dfy`,
`partitions.dfy`, `subgraphs.dfy`, `sensor_measurements.dfy`, `dyn_tree.dfy`,
`options.dfy`.

The C++ bodies of the `DynTree` methods live in `DynTree.cpp`, which is not
part of this model. Their contracts therefore come from the declarations and
doc comments in the header; where those are silent, the model makes these
choices:

- Setters validate the vector size and the part name: in the model they
  return `None` and leave the state as it was.
- The limit rule is a clamp to `[q_min[i], q_max[i]]`, applied only to DOFs
  whose `constrained` flag is set.
- A lookup by name returns the first match in serialisation order.
- A subgraph is opened at the base and at every link whose joint to its
  parent is an FT-sensor joint.

## Model

| member | source | states |
|---|---|---|
| FTSensors.NewFTSensor | src/iDynTree/include/iCub/iDynTree/DynTree.h:54-64 | the constructor without a transform sets H_parent_sensor to the identity and keeps parent, child, sensor id, joint name and tree graph as given, which getParent/getChild/getH_parent_sensor return |
| FTSensors.NewFTSensorWithTransform | src/iDynTree/include/iCub/iDynTree/DynTree.h:66-77 | the constructor with a transform stores it as H_parent_sensor and keeps every other argument as given |
| FTSensors.FTSensor.GetWrenchExcertedOnSubGraph | src/iDynTree/include/iCub/iDynTree/DynTree.h:85-96 | its precondition `CanProjectOn` admits exactly the parent link, or the child of a fixed joint whose links both exist, with an in-range sensor id (the assertions of 90-93); on the parent the result is H_parent_sensor applied to the measurement, and on the child of a joint fixed both ways, under the algebra's laws, it is getH_child_sensor() applied to the measurement |
| FTSensors.FTSensor.GetH_child_sensor | src/iDynTree/include/iCub/iDynTree/DynTree.h:103-109 | requires both fixed-joint assertions of 105-106; it is H_child_parent composed with H_parent_sensor, so under the composition law acting with it is acting with H_parent_sensor and then H_child_parent |
| FTSensors.ParentSideProjection | src/iDynTree/include/iCub/iDynTree/DynTree.h:35-38 | for the parent link the projection is allowed whenever the sensor id indexes the measurements, and equals H_parent_sensor applied to the measurement (f_p = H_p_s f_s) |
| FTSensors.ChildSideProjection | src/iDynTree/include/iCub/iDynTree/DynTree.h:89-94 | for the child of a fixed joint the projection is allowed, and equals H_child_parent (parent pose seen from the child at joint value 0) applied to the parent-side result |
| FTSensors.ChildSideAgreesWithH_child_sensor | src/iDynTree/include/iCub/iDynTree/DynTree.h:103-109 | under the algebra's laws, the child-side projection equals getH_child_sensor() applied to the raw measurement |
| FTSensors.IdentitySensorPassesMeasurement | src/iDynTree/include/iCub/iDynTree/DynTree.h:54-64 | under the laws, a sensor built without a transform hands the raw measurement to its parent link |
| FTSensors.IdentitySensorChildFrame | src/iDynTree/include/iCub/iDynTree/DynTree.h:103-109 | under the laws, for a sensor built without a transform getH_child_sensor() acts as H_child_parent |
| JointLimits.Clip | src/iDynTree/include/iCub/iDynTree/DynTree.h:162-164 | with q_min <= q_max the result lies in the limits, a value already inside is returned unchanged, and no point of the limits is nearer the requested value |
| JointLimits.EffectivePosition | src/iDynTree/include/iCub/iDynTree/DynTree.h:164-168 | an unconstrained DOF takes the requested value; a constrained one ends inside its limits, and unchanged when already inside |
| JointLimits.EffectivePositionIdempotent | src/iDynTree/include/iCub/iDynTree/DynTree.h:343-350 | applying the limit rule to an effective position changes nothing |
| Sequences.CountTrue | src/iDynTree/include/iCub/iDynTree/DynTree.h:164-166 | constrained_count is at most the DOF count, zero exactly when no DOF is constrained and the DOF count exactly when all are |
| Sequences.IndexOf | src/iDynTree/include/iCub/iDynTree/DynTree.h:292-305 | the result is -1 exactly when the value is absent, and otherwise the position of its first occurrence |
| Sequences.GatherScatter | src/iDynTree/include/iCub/iDynTree/DynTree.h:343-358 | reading back the positions just written, at distinct indices, gives the written values: the basis of setAng followed by getAng |
| Sequences.ScatterGather | src/iDynTree/include/iCub/iDynTree/DynTree.h:343-358 | writing back the values already stored changes nothing |
| Partitions.FindPart | src/iDynTree/include/iCub/iDynTree/DynTree.h:307-340 | the part-id and part-name lookups: the first part carrying the id or the name, or -1 exactly when no part does |
| SubGraphs.IsFTSensor | src/iDynTree/include/iCub/iDynTree/DynTree.h:212 | true exactly when the joint name is one of the FT-sensor names |
| SubGraphs.SensorCut | src/iDynTree/include/iCub/iDynTree/DynTree.h:204-212 | the cut mask marks exactly the links whose joint to their parent is an FT-sensor joint |
| SubGraphs.ComputeSubGraphTables | src/iDynTree/include/iCub/iDynTree/DynTree.h:195-204 | walking the traversal from the base, the three tables come out consistent and describe the cut: roots are exactly the base and the links hanging from sensor joints, every other link shares its parent's subgraph, and subgraph 0 is the base's |
| SubGraphs.TablesAfterAll | src/iDynTree/include/iCub/iDynTree/DynTree.h:195-197 | after the whole traversal every link is assigned, the tables are consistent and they describe the cut at the sensors |
| SubGraphs.OneRootPerSubGraph | src/iDynTree/include/iCub/iDynTree/DynTree.h:195-197 | two roots in the same subgraph are the same link |
| SubGraphs.RootOfSubGraphIsRoot | src/iDynTree/include/iCub/iDynTree/DynTree.h:195-197 | the root recorded for a link's subgraph is a root link and lies in that subgraph |
| SensorMeasurements.FTRoundTrip | src/iDynTree/include/iCub/iDynTree/DynTree.h:414-440 | storing a force-first 6-vector as a wrench and reading it back returns the same 6-vector |
| SensorMeasurements.WrenchRoundTrip | src/iDynTree/include/iCub/iDynTree/DynTree.h:414-440 | reading a wrench out as a 6-vector and storing it again returns the same wrench |
| DynTrees.DynTree.constructor | src/iDynTree/include/iCub/iDynTree/DynTree.h:261-273 | keeps the topology as given, zeroes q, dq, ddq and the measured wrenches, stores the limits and mask, and leaves the engine valid with the subgraph tables built from the sensor joints |
| DynTrees.DynTree.BuildSubGraphStructure | src/iDynTree/include/iCub/iDynTree/DynTree.h:195-204 | refills the three tables from the dynamic traversal cut at ft_names, with NrOfDynamicSubGraphs the number of roots |
| DynTrees.DynTree.GetNrOfDOFs | src/iDynTree/include/iCub/iDynTree/DynTree.h:277-284 | one DOF per joint-array entry and per serialised DOF name |
| DynTrees.DynTree.GetNrOfLinks | src/iDynTree/include/iCub/iDynTree/DynTree.h:286-290 | one link per serialised link name and per traversal entry |
| DynTrees.DynTree.GetLinkIndex | src/iDynTree/include/iCub/iDynTree/DynTree.h:292-297 | an index in 0..NrOfLinks-1 naming the link, or -1 exactly when no link has that name |
| DynTrees.DynTree.GetDOFIndex | src/iDynTree/include/iCub/iDynTree/DynTree.h:299-305 | an index in 0..NrOfDOFs-1 naming the DOF, or -1 exactly when no DOF has that name |
| DynTrees.DynTree.GetLinkIndexByPartId | src/iDynTree/include/iCub/iDynTree/DynTree.h:308-314 | in 0..NrOfLinks-1 or -1; non-negative exactly when a part has the id and the local index is in range, and then the part's global link index at that position |
| DynTrees.DynTree.GetDOFIndexByPartId | src/iDynTree/include/iCub/iDynTree/DynTree.h:316-323 | in 0..NrOfDOFs-1 or -1; non-negative exactly when a part has the id and the local index is in range, and then the part's global DOF index at that position |
| DynTrees.DynTree.GetLinkIndexByPartName | src/iDynTree/include/iCub/iDynTree/DynTree.h:325-331 | as by id, for the part with the given name |
| DynTrees.DynTree.GetDOFIndexByPartName | src/iDynTree/include/iCub/iDynTree/DynTree.h:333-340 | as by id, for the part with the given name |
| DynTrees.DynTree.TargetDOFs | src/iDynTree/include/iCub/iDynTree/DynTree.h:342-350 | an empty part name selects every DOF in order, a known name exactly that part's DOFs, an unknown name nothing; the selection is in range and repetition-free |
| DynTrees.DynTree.SetAngAt | src/iDynTree/include/iCub/iDynTree/DynTree.h:161-168 | the private setAng(q, i) stores the effective position of DOF i, changes no other DOF, and returns the stored value |
| DynTrees.DynTree.SetAngs | src/iDynTree/include/iCub/iDynTree/DynTree.h:343-350 | setting the selected DOFs one by one stores exactly their effective positions and leaves every other DOF unchanged |
| DynTrees.DynTree.SetAng | src/iDynTree/include/iCub/iDynTree/DynTree.h:342-350 | unknown part or wrong vector size: None and q unchanged; otherwise it returns the effective positions, stores them at exactly the part's DOFs, and getAng then returns them |
| DynTrees.DynTree.EffectivePositionsInBounds | src/iDynTree/include/iCub/iDynTree/DynTree.h:343-350 | values inside the limits of the constrained DOFs are applied unchanged |
| DynTrees.DynTree.EffectivePositionsIdempotent | src/iDynTree/include/iCub/iDynTree/DynTree.h:343-350 | setting the returned effective positions again returns them unchanged |
| DynTrees.DynTree.GetAng | src/iDynTree/include/iCub/iDynTree/DynTree.h:352-358 | the positions of the selected DOFs in part-local order, None for an unknown part |
| DynTrees.DynTree.SetDAng | src/iDynTree/include/iCub/iDynTree/DynTree.h:360-367 | unknown part or wrong size: None and dq unchanged; otherwise the given speeds are stored at exactly the part's DOFs, returned, and read back by getDAng |
| DynTrees.DynTree.GetDAng | src/iDynTree/include/iCub/iDynTree/DynTree.h:369-377 | the speeds of the selected DOFs in part-local order, None for an unknown part |
| DynTrees.DynTree.SetD2Ang | src/iDynTree/include/iCub/iDynTree/DynTree.h:379-386 | as SetDAng, for the accelerations |
| DynTrees.DynTree.GetD2Ang | src/iDynTree/include/iCub/iDynTree/DynTree.h:388-394 | the accelerations of the selected DOFs in part-local order, None for an unknown part |
| DynTrees.DynTree.SetSensorMeasurement | src/iDynTree/include/iCub/iDynTree/DynTree.h:414-425 | true exactly for a known sensor and a 6-vector; then only that sensor's wrench changes and getSensorMeasurement returns the vector; otherwise nothing changes |
| DynTrees.DynTree.GetSensorMeasurement | src/iDynTree/include/iCub/iDynTree/DynTree.h:427-440 | for a known sensor a 6-vector, force first, describing its stored wrench; None otherwise |
| DynTrees.DynTree.GetSubGraphIndex | src/iDynTree/include/iCub/iDynTree/DynTree.h:195-201 | a subgraph index in 0..NrOfDynamicSubGraphs-1, whose root lies in it, and equal to the parent's subgraph for a non-root link |
| DynTrees.DynTree.IsSubGraphRoot | src/iDynTree/include/iCub/iDynTree/DynTree.h:196-202 | true exactly when the link is its subgraph's recorded root, and exactly when it is the dynamic base or hangs from an FT-sensor joint |

## Left out

- The numeric content of KDL frames, wrenches and twists is not modelled: they are abstract types with the two laws stated as hypotheses.
- The compute phases are not modelled, because they are floating-point matrix work: positions, kinematic and dynamic RNEA, contact estimation (`buildAb_contacts`, `store_contacts_results`, `getLinkLocalAb_contacts`, `getMeasuredWrench`), Jacobians, COM, the dynamics regressor, and the per-link caches they fill.
- `setInertialMeasure`/`getInertialMeasure`, `setContacts`/`getContacts`, `getPosition`, `getVel`, `getAcc`, `getTorques` and `getDQ_fb` are not modelled: they read or write the IMU twists (DynTree.h:158-159), the caller-supplied contact list `contacts` (DynTree.h:171) or those caches. `getDQ_fb` also returns `dq` from element 6 on, but its first six entries come from the velocity cache.
- DynTrees.DynTree.constructor: building from a `KDL::Tree`, a `TreeSerialization`, a `TreePartition` and an IMU link name belongs to a foreign library and is not modelled. The model's constructor takes the results instead: serialisation names, partition, both traversals, the sensor joint names, and the limits and mask, whose source the header does not show. The default constructor `DynTree()` and the `constructor(...)` method, with its per-sensor transforms, are not modelled either.
- The zero start of the joint arrays and measured wrenches is an assumption, because `DynTree.cpp` is not part of this model.
- `ft_list` and `link_FT_sensors` are left out. The engine stores the sensor joint names, and `FTSensor` is modelled on its own.
- DynTrees.DynTree.BuildSubGraphStructure: its `int` result is not modelled, because the header does not say what it means.
- DynTrees.DynTree.SetDAng: the doc comment says the returned speeds account for min/max values, but the state has no speed or acceleration limits. The header declares position limits only (`q_min`/`q_max`, DynTree.h:161-164), so the model stores and returns the given speeds. SetD2Ang is the same.
- DynTrees.DynTree.GetDAng: the doc comment says the result has size getNrOfDOFs(); the model reads that as "the joint DOFs only, without floating-base entries" (in contrast with `getDQ_fb`, DynTree.h:606-610), so for a named part it returns a vector of the part's size, as getAng does.
- DynTrees.DynTree.GetSensorMeasurement: after `dynamicRNEA` the source may return a simulated measurement. RNEA is not modelled, so the model always returns the stored wrench.
- Assertions in `FTSensor` and out-of-range link indices in `getSubGraphIndex`/`isSubGraphRoot` are preconditions. So are two unchecked index accesses: `measured_wrenches[sensor_id]` in `getWrenchExcertedOnSubGraph` (DynTree.h:88, 94), part of `CanProjectOn`, and the DOF index of the private `setAng(q, i)` (DynTree.h:168), `0 <= i < NrOfDOFs` in `SetAngAt`. Builds with assertions disabled are not modelled.
- `FTSensor` holds a `const TreeGraph *` (DynTree.h:44, 59); the model stores the tree graph as a value. The engine's graph does not change after construction, so no update through the pointer is missed, but sharing of one graph between sensors is not represented.
- Integer widths are not modelled: counts and indices are unbounded `int`/`nat`, and joint values are `real`, not `double`.
- `KDL::CoDyCo::Traversal` is reduced to three per-link arrays: visiting order, parent, and name of the joint to the parent. Building it is not modelled.
- Debug output (`verbose`, `iostream`) is left out.
- `locomotionConstants.h` is not part of this model: it is a static parameter table without logic.
