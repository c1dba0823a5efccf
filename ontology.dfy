/** The item ontology shared by the warehouse simulation and its vision server. */
module Ontology {

  /** The four kinds of item a warehouse sorts. */
  datatype ItemType = Electronics | Clothing | Food | Tools

  /** The members of the enumeration in declaration order, the order Python iterates them in. */
  const AllTypes: seq<ItemType> := [Electronics, Clothing, Food, Tools]

  /** The position of a type in the declaration order. */
  function TypeIndex(t: ItemType): (k: nat)
    ensures k < |AllTypes| && AllTypes[k] == t && t in AllTypes
    ensures forall j :: 0 <= j < |AllTypes| && AllTypes[j] == t ==> j == k
  {
    match t
    case Electronics => 0
    case Clothing => 1
    case Food => 2
    case Tools => 3
  }

  /** Every type is listed. */
  lemma AllTypesComplete()
    ensures forall t: ItemType :: t in AllTypes
  {
    forall t: ItemType
      ensures t in AllTypes
    {
      var k := TypeIndex(t);
    }
  }
}
