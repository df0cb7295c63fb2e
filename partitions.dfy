/**
 * The partition of the tree (KDL::CoDyCo::TreePartition): named parts, each
 * listing the global indices of its links and of its DOFs; the position of
 * an index in a part's list is its part-local index.
 */
module Partitions {
  import opened Sequences

  datatype TreePart = TreePart(id: int, name: string, links: seq<int>, dofs: seq<int>)

  /**
   * Parts are told apart by id and by name, and every part lists valid
   * global indices, each at most once.
   */
  ghost predicate ValidPartition(parts: seq<TreePart>, nrOfLinks: int, nrOfDOFs: int) {
    forall i :: 0 <= i < |parts| ==>
      && FindPart(parts, ById(parts[i].id)) == i
      && FindPart(parts, ByName(parts[i].name)) == i
      && AllBelow(parts[i].links, nrOfLinks) && Distinct(parts[i].links)
      && AllBelow(parts[i].dofs, nrOfDOFs) && Distinct(parts[i].dofs)
  }

  /** A part is looked up either by its id or by its name. */
  datatype PartKey = ById(id: int) | ByName(name: string)

  predicate HasKey(part: TreePart, key: PartKey) {
    match key
    case ById(id) => part.id == id
    case ByName(name) => part.name == name
  }

  /** Position of the first part carrying the key, or -1 when there is none. */
  function FindPart(parts: seq<TreePart>, key: PartKey): (r: int)
    ensures -1 <= r < |parts|
    ensures r >= 0 ==> HasKey(parts[r], key)
    ensures r >= 0 ==> forall i :: 0 <= i < r ==> !HasKey(parts[i], key)
    ensures r == -1 <==> forall i :: 0 <= i < |parts| ==> !HasKey(parts[i], key)
  {
    if |parts| == 0 then -1
    else if HasKey(parts[0], key) then 0
    else
      var r := FindPart(parts[1..], key);
      assert forall i :: 1 <= i < |parts| ==> parts[i] == parts[1..][i - 1];
      if r < 0 then -1 else r + 1
  }

  /** The global index at part-local position local of a part's index list, or -1 when local is out of range. */
  function LocalToGlobal(globals: seq<int>, local: int): int {
    if 0 <= local < |globals| then globals[local] else -1
  }
}
