/**
 * The six cardinal relations of a block, each with its unit offset and its
 * tangent relation (the switch tables at the top of src/chunk.cc).
 */
module Cardinal {
  import opened Vectors

  /** Listed in the order of the enumeration, ABOVE first. */
  datatype Relation = Above | Below | North | South | East | West

  const NUM_CARDINAL_RELATIONS := 6

  /** The relations in the order FOR_EACH_CARDINAL_RELATION visits them. */
  function Relations(): (rs: seq<Relation>)
    ensures |rs| == NUM_CARDINAL_RELATIONS
    ensures forall r: Relation :: 0 <= CodeOf(r) < |rs| && rs[CodeOf(r)] == r
    ensures forall i, j :: 0 <= i < j < |rs| ==> rs[i] != rs[j]
  {
    [Above, Below, North, South, East, West]
  }

  /** The vector of a relation, one step in {-1,0,1}^3: +y is up, +z north, +x east. */
  function RelationVector(r: Relation): (v: Vec3)
    ensures IsOffset(v)
  {
    match r
    case Above => Vec3(0, 1, 0)
    case Below => Vec3(0, -1, 0)
    case North => Vec3(0, 0, 1)
    case South => Vec3(0, 0, -1)
    case East => Vec3(1, 0, 0)
    case West => Vec3(-1, 0, 0)
  }

  /** The tangent relation of a face. */
  function RelationTangent(r: Relation): Relation
  {
    match r
    case Above => North
    case Below => South
    case North => East
    case South => West
    case East => Above
    case West => Below
  }

  /** Every relation's vector is a unit vector along one axis. */
  lemma RelationVectorIsAxisUnit(r: Relation)
    ensures IsAxisUnit(RelationVector(r))
  {
  }

  /** The tangent's vector is a unit vector orthogonal to the relation's own. */
  lemma TangentOrthogonal(r: Relation)
    ensures IsAxisUnit(RelationVector(RelationTangent(r)))
    ensures Dot(RelationVector(r), RelationVector(RelationTangent(r))) == 0
  {
  }

  /** Distinct relations point in distinct directions. */
  lemma RelationVectorInjective(q: Relation, r: Relation)
    ensures RelationVector(q) == RelationVector(r) ==> q == r
  {
  }

  /** The relation pointing the other way. */
  function Opposite(r: Relation): (o: Relation)
    ensures RelationVector(o) == Neg(RelationVector(r))
  {
    match r
    case Above => Below
    case Below => Above
    case North => South
    case South => North
    case East => West
    case West => East
  }

  // ---------------------------------------------------------------------------
  // The enumeration as integers: a value outside it is a thrown error.
  // ---------------------------------------------------------------------------

  datatype Lookup<T> = Found(value: T) | InvalidRelation

  function RelationOfCode(code: int): (r: Lookup<Relation>)
    ensures r.Found? <==> 0 <= code < NUM_CARDINAL_RELATIONS
    ensures r.Found? ==> Relations()[code] == r.value
  {
    if 0 <= code < NUM_CARDINAL_RELATIONS then Found(Relations()[code]) else InvalidRelation
  }

  /** cardinal_relation_vector on the enumeration's integer values. */
  function CodedRelationVector(code: int): (v: Lookup<Vec3>)
    ensures v.Found? <==> 0 <= code < NUM_CARDINAL_RELATIONS
    ensures v.Found? ==> IsAxisUnit(v.value)
  {
    match RelationOfCode(code)
    case Found(r) =>
      RelationVectorIsAxisUnit(r);
      Found(RelationVector(r))
    case InvalidRelation => InvalidRelation
  }

  /** cardinal_relation_tangent on the enumeration's integer values. */
  function CodedRelationTangent(code: int): (t: Lookup<int>)
    ensures t.Found? <==> 0 <= code < NUM_CARDINAL_RELATIONS
    ensures t.Found? ==> 0 <= t.value < NUM_CARDINAL_RELATIONS && CodedRelationVector(t.value).Found?
    ensures t.Found? ==> Dot(CodedRelationVector(code).value, CodedRelationVector(t.value).value) == 0
  {
    match RelationOfCode(code)
    case Found(r) =>
      TangentOrthogonal(r);
      Found(CodeOf(RelationTangent(r)))
    case InvalidRelation => InvalidRelation
  }

  /** The enumeration value of a relation. */
  function CodeOf(r: Relation): int {
    match r
    case Above => 0
    case Below => 1
    case North => 2
    case South => 3
    case East => 4
    case West => 5
  }
}
