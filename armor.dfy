/** The closed classification of tank armor: each variant carries a label and a flat bonus. */
module Armor {
  datatype ArmorType = Chobham | Composite | Ceramic {

    /** The human-readable label of the variant (the enum's `name` property). */
    function Label(): (r: string)
      ensures r != [] && ' ' !in r
      ensures forall i :: 0 <= i < |r| ==> 'a' <= r[i] <= 'z'
    {
      match this
      case Chobham => "chobham"
      case Composite => "composite"
      case Ceramic => "ceramic"
    }

    /** The flat bonus added to a tank's base armor (the enum's `armor_value` property). */
    function Bonus(): (r: int)
      ensures r == 50 || r == 100
      ensures r == 100 <==> this == Chobham
    {
      match this
      case Chobham => 100
      case Composite => 50
      case Ceramic => 50
    }
  }

  /** The label alone identifies the variant. */
  lemma LabelInjective(s: ArmorType, t: ArmorType)
    ensures s.Label() == t.Label() ==> s == t
  {
  }
}
