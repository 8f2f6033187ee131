// The measurement units a food entry may be recorded in, and their labels.

module Units {
  import opened Wrappers

  /** The six declared units; `Ounce` is the default. The last one is the code's
      `Unit.Unit` ("unidad"), renamed because a constructor may not share the type's name. */
  datatype Unit = Ounce | Gram | Kilogram | Pound | Meter | GenericUnit

  /** `UnitExtensions.GetDisplayText`. The code's fallback arm (`unit.ToString()`)
      cannot be reached by a declared value, so this match has no such arm. */
  function GetDisplayText(u: Unit): string {
    match u
    case Ounce => "oz"
    case Gram => "g"
    case Kilogram => "kg"
    case Pound => "lb"
    case Meter => "m"
    case GenericUnit => "unidad"
  }

  /** The label table read backwards: which unit, if any, shows a given label. */
  function UnitForDisplayText(s: string): (r: Option<Unit>)
    ensures r.Some? ==> GetDisplayText(r.value) == s
    ensures r.None? ==> forall u: Unit :: GetDisplayText(u) != s
  {
    if s == "oz" then Some(Ounce)
    else if s == "g" then Some(Gram)
    else if s == "kg" then Some(Kilogram)
    else if s == "lb" then Some(Pound)
    else if s == "m" then Some(Meter)
    else if s == "unidad" then Some(GenericUnit)
    else None
  }

  /** Reading a label back gives the unit that showed it: the table is injective. */
  lemma DisplayTextRoundTrip(u: Unit)
    ensures UnitForDisplayText(GetDisplayText(u)) == Some(u)
  {
  }

  lemma DisplayTextInjective(u: Unit, v: Unit)
    requires GetDisplayText(u) == GetDisplayText(v)
    ensures u == v
  {
    DisplayTextRoundTrip(u);
    DisplayTextRoundTrip(v);
  }

  /** `UnitExtensions.GetAllUnits`: every declared unit exactly once, the default first. */
  function GetAllUnits(): (r: seq<Unit>)
    ensures |r| == 6 && r[0] == Ounce
    ensures forall i, j :: 0 <= i < j < |r| ==> r[i] != r[j]
  {
    [Ounce, Gram, Kilogram, Pound, Meter, GenericUnit]
  }

  /** No unit is missing from `GetAllUnits`. */
  lemma AllUnitsListed(u: Unit)
    ensures u in GetAllUnits()
  {
    var r := GetAllUnits();
    match u
    case Ounce => assert r[0] == u;
    case Gram => assert r[1] == u;
    case Kilogram => assert r[2] == u;
    case Pound => assert r[3] == u;
    case Meter => assert r[4] == u;
    case GenericUnit => assert r[5] == u;
  }
}
