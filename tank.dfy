/**
 * Tanks: a mutable entity with base armor, penetration, an armor classification and a
 * stored display name, plus the batch "is any tank safe" query.
 */
module Tanks {
  import opened Wrappers
  import opened Armor
  import opened Text

  /** The name synthesised when none (or an empty one) is given: `Tank <label> A<armor> P<penetration>`. */
  function DefaultName(armorType: ArmorType, armor: int, penetration: int): (r: string)
    ensures |r| > 5 && r[..5] == "Tank "
  {
    "Tank " + armorType.Label() + " A" + IntToString(armor) + " P" + IntToString(penetration)
  }

  /** The default name regrouped around the three spaces that separate its fields. */
  lemma DefaultNameShape(armorType: ArmorType, armor: int, penetration: int)
    ensures DefaultName(armorType, armor, penetration) ==
      "Tank" + " " + (armorType.Label() + " " + ("A" + IntToString(armor) + " " + ("P" + IntToString(penetration))))
  {
  }

  /** The default name determines the armor type, the armor and the penetration it was built from. */
  lemma DefaultNameInjective(t1: ArmorType, a1: int, p1: int, t2: ArmorType, a2: int, p2: int)
    requires DefaultName(t1, a1, p1) == DefaultName(t2, a2, p2)
    ensures t1 == t2 && a1 == a2 && p1 == p2
  {
    var l1, x1, y1 := t1.Label(), IntToString(a1), IntToString(p1);
    var l2, x2, y2 := t2.Label(), IntToString(a2), IntToString(p2);
    var tail1, tail2 := "A" + x1 + " " + ("P" + y1), "A" + x2 + " " + ("P" + y2);
    DefaultNameShape(t1, a1, p1);
    DefaultNameShape(t2, a2, p2);
    SplitAtSpace("Tank", l1 + " " + tail1, "Tank", l2 + " " + tail2);
    SplitAtSpace(l1, tail1, l2, tail2);
    LabelInjective(t1, t2);
    SplitAtSpace("A" + x1, "P" + y1, "A" + x2, "P" + y2);
    assert x1 == ("A" + x1)[1..] && x2 == ("A" + x2)[1..];
    assert y1 == ("P" + y1)[1..] && y2 == ("P" + y2)[1..];
    IntToStringInjective(a1, a2);
    IntToStringInjective(p1, p2);
  }

  /** Python truthiness of an optional string: `None` and `""` are both falsy. */
  predicate IsFalsy(value: Option<string>)
  {
    value.None? || value.value == []
  }

  class Tank {
    var armor: int
    var penetration: int
    var armorType: ArmorType
    /** The stored name behind the `name` property. */
    var storedName: string

    /** The setter's fallback makes the stored name never empty. */
    ghost predicate Valid()
      reads this
    {
      storedName != []
    }

    /** Assigns the stats first and then the name through the setter, so an omitted name is the default. */
    constructor (armor: int, penetration: int, armorType: ArmorType, name: Option<string>)
      ensures Valid()
      ensures this.armor == armor && this.penetration == penetration && this.armorType == armorType
      ensures !IsFalsy(name) ==> storedName == name.value
      ensures IsFalsy(name) ==> storedName == DefaultName(armorType, armor, penetration)
    {
      this.armor := armor;
      this.penetration := penetration;
      this.armorType := armorType;
      new;
      SetName(name);
    }

    /** The `name` property getter. */
    function Name(): (r: string)
      reads this
      ensures Valid() ==> r != []
    {
      storedName
    }

    /** The `name` property setter: a truthy value is stored verbatim, a falsy one is replaced by the default. */
    method SetName(value: Option<string>)
      modifies this`storedName
      ensures Valid()
      ensures !IsFalsy(value) ==> storedName == value.value
      ensures IsFalsy(value) ==> storedName == DefaultName(armorType, armor, penetration)
    {
      if IsFalsy(value) {
        storedName := DefaultName(armorType, armor, penetration);
      } else {
        storedName := value.value;
      }
    }

    /** The effective armor: the base armor plus the classification bonus, read from the current fields. */
    function RealArmor(): (r: int)
      reads this
      ensures armorType == Chobham ==> r == armor + 100
      ensures armorType != Chobham ==> r == armor + 50
    {
      armor + armorType.Bonus()
    }

    /** This tank is vulnerable to `attacker` when the attacker's penetration meets or exceeds its effective armor. */
    function Vulnerable(attacker: Tank): (r: bool)
      reads this, attacker
      ensures r <==> armor + armorType.Bonus() <= attacker.penetration
      ensures RealArmor() == attacker.penetration ==> r
    {
      RealArmor() <= attacker.penetration
    }

    /** Exchanges the base armor of this tank and `other` and returns `other`. */
    method SwapArmor(other: Tank) returns (r: Tank)
      modifies this`armor, other`armor
      ensures r == other
      ensures armor == old(other.armor) && other.armor == old(armor)
      ensures RealArmor() == old(other.armor) + armorType.Bonus()
      ensures penetration == old(penetration) && other.penetration == old(other.penetration)
      ensures armorType == old(armorType) && other.armorType == old(other.armorType)
      ensures storedName == old(storedName) && other.storedName == old(other.storedName)
    {
      var mine, theirs := armor, other.armor;
      armor := theirs;
      other.armor := mine;
      r := other;
    }

    /** The string form: the name lower-cased with every space replaced by a hyphen. */
    function ToString(): (r: string)
      reads this
      ensures |r| == |storedName|
      ensures ' ' !in r
      ensures Valid() ==> r != []
      ensures forall i :: 0 <= i < |r| ==> r[i] == if storedName[i] == ' ' then '-' else LowerChar(storedName[i])
    {
      Slug(storedName)
    }
  }

  /** Swapping twice between the same pair restores both original armor values. */
  method SwapTwice(a: Tank, b: Tank)
    modifies a`armor, b`armor
    ensures a.armor == old(a.armor) && b.armor == old(b.armor)
  {
    var r1 := a.SwapArmor(b);
    var r2 := a.SwapArmor(b);
  }

  /** Swapping a tank with itself leaves its armor unchanged. */
  method SwapWithSelf(t: Tank)
    modifies t`armor
    ensures t.armor == old(t.armor)
  {
    var r := t.SwapArmor(t);
  }

  /**
   * The armor-type argument as a caller passes it: a member of the enumeration, or any
   * other value (shown as a label and a bonus).
   */
  datatype ArmorArg = Member(armorType: ArmorType) | Other(text: string, bonus: int)

  /** The error raised when the armor-type argument is not a member of the enumeration. */
  datatype TankError = InvalidArmorType(text: string, bonus: int)

  /** Construction with the membership check: fails, creating nothing, unless the argument is a member. */
  method NewTank(armor: int, penetration: int, arg: ArmorArg, name: Option<string>)
    returns (r: Result<Tank, TankError>)
    ensures r.Failure? <==> arg.Other?
    ensures arg.Other? ==> r.error == InvalidArmorType(arg.text, arg.bonus)
    ensures r.Success? ==> fresh(r.value) && r.value.Valid()
    ensures r.Success? ==> r.value.armor == armor && r.value.penetration == penetration
    ensures r.Success? ==> r.value.armorType == arg.armorType
    ensures r.Success? && !IsFalsy(name) ==> r.value.storedName == name.value
    ensures r.Success? && IsFalsy(name) ==> r.value.storedName == DefaultName(arg.armorType, armor, penetration)
  {
    match arg
    case Other(text, bonus) =>
      return Failure(InvalidArmorType(text, bonus));
    case Member(armorType) =>
      var t := new Tank(armor, penetration, armorType, name);
      return Success(t);
  }

  /** Whether every tank in `ts` is vulnerable to `shooter` (Python's `all` over the generator). */
  function AllVulnerable(ts: seq<Tank>, shooter: Tank): (r: bool)
    reads ts, shooter
    ensures r <==> forall i :: 0 <= i < |ts| ==> ts[i].Vulnerable(shooter)
  {
    if ts == [] then true else ts[0].Vulnerable(shooter) && AllVulnerable(ts[1..], shooter)
  }

  /** The candidates actually examined: a missing list counts as empty (`test_tanks or []`). */
  function Candidates(testTanks: Option<seq<Tank>>): seq<Tank>
  {
    if testTanks.Some? then testTanks.value else []
  }

  /** Reports whether at least one candidate tank withstands the shooter. */
  function TestTankSafe(shooter: Tank, testTanks: Option<seq<Tank>>): (r: string)
    reads shooter, Candidates(testTanks)
    ensures r == "A tank is safe" || r == "No tank is safe"
    ensures r == "A tank is safe" <==>
      exists i :: 0 <= i < |Candidates(testTanks)| && !Candidates(testTanks)[i].Vulnerable(shooter)
    ensures (testTanks.None? || testTanks.value == []) ==> r == "No tank is safe"
  {
    var atLeastOneSafe := !AllVulnerable(Candidates(testTanks), shooter);
    (if atLeastOneSafe then "A" else "No") + " tank is safe"
  }
}
