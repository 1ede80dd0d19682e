/**
 * The unit-of-measure tables: `units`, which gives each unit name its
 * canonical unit, its multiplier into that unit and whether its readings may
 * be summed over time, and `upper_units_to_uom`, which maps upper-cased names
 * back to unit names. The units are an enumeration; `Name`, `Info` and
 * `UpperName` are the table entries and `UnitNamed`, `UnitFromUpper` the
 * keyed lookups. Every lookup yields `None` (the source's `null`) for a
 * missing key.
 */
module Units {
  import opened JsValues

  datatype UnitInfo = UnitInfo(description: string, canonical: Uom, multiplierToCanonical: real, additive: bool)

  datatype Uom =
    MWh | kWh | Wh | MVArh | kVArh | VArh | MVAr | kVAr | VAr | MW | kW | W | MVAh | kVAh | VAh | MVA | kVA | VA | kV | V | kA | A | pf

  /** The key of a unit in the `units` table. */
  function Name(u: Uom): (n: string)
    ensures |n| > 0
  {
    match u
    case MWh => "MWh"
    case kWh => "kWh"
    case Wh => "Wh"
    case MVArh => "MVArh"
    case kVArh => "kVArh"
    case VArh => "VArh"
    case MVAr => "MVAr"
    case kVAr => "kVAr"
    case VAr => "VAr"
    case MW => "MW"
    case kW => "kW"
    case W => "W"
    case MVAh => "MVAh"
    case kVAh => "kVAh"
    case VAh => "VAh"
    case MVA => "MVA"
    case kVA => "kVA"
    case VA => "VA"
    case kV => "kV"
    case V => "V"
    case kA => "kA"
    case A => "A"
    case pf => "pf"
  }

  /** The entry of a unit in the `units` table, column by column. */
  function Info(u: Uom): UnitInfo {
    UnitInfo(Description(u), Canonical(u), Multiplier(u), Additive(u))
  }

  /** The `canonical` column: the unit the readings convert to. */
  function Canonical(u: Uom): Uom {
    match u
    case MWh => kWh
    case kWh => kWh
    case Wh => kWh
    case MVArh => kVArh
    case kVArh => kVArh
    case VArh => kVArh
    case MVAr => kVAr
    case kVAr => kVAr
    case VAr => kVAr
    case MW => kW
    case kW => kW
    case W => kW
    case MVAh => kVAh
    case kVAh => kVAh
    case VAh => kVAh
    case MVA => kVA
    case kVA => kVA
    case VA => kVA
    case kV => V
    case V => V
    case kA => A
    case A => A
    case pf => pf
  }

  /** The `multiplierToCanonical` column. */
  function Multiplier(u: Uom): real {
    match u
    case MWh => 1000.0
    case kWh => 1.0
    case Wh => 0.001
    case MVArh => 1000.0
    case kVArh => 1.0
    case VArh => 0.001
    case MVAr => 1000.0
    case kVAr => 1.0
    case VAr => 0.001
    case MW => 1000.0
    case kW => 1.0
    case W => 0.001
    case MVAh => 1000.0
    case kVAh => 1.0
    case VAh => 0.001
    case MVA => 1000.0
    case kVA => 1.0
    case VA => 0.001
    case kV => 1000.0
    case V => 1.0
    case kA => 1000.0
    case A => 1.0
    case pf => 1.0
  }

  /** The `additive` column: whether readings may be summed over time. */
  function Additive(u: Uom): bool {
    match u
    case MWh => true
    case kWh => true
    case Wh => true
    case MVArh => true
    case kVArh => true
    case VArh => true
    case MVAr => false
    case kVAr => false
    case VAr => false
    case MW => false
    case kW => false
    case W => false
    case MVAh => true
    case kVAh => true
    case VAh => true
    case MVA => false
    case kVA => false
    case VA => false
    case kV => false
    case V => false
    case kA => false
    case A => false
    case pf => false
  }

  /** The `description` of a unit in the `units` table. */
  function Description(u: Uom): string {
    match u
    case MWh => "megawatt hour"
    case kWh => "kilowatt hour"
    case Wh => "watt hour"
    case MVArh => "megavolt ampere reactive hour (megavar hour)"
    case kVArh => "kilovolt ampere reactive hour"
    case VArh => "volt ampere reactive hour"
    case MVAr => "megavolt ampere reactive"
    case kVAr => "kilovolt ampere reactive"
    case VAr => "volt ampere reactive"
    case MW => "megawatt"
    case kW => "kilowatt"
    case W => "watt"
    case MVAh => "megavolt ampere hour"
    case kVAh => "kilovolt ampere hour"
    case VAh => "volt ampere hour"
    case MVA => "megavolt ampere"
    case kVA => "kilovolt ampere"
    case VA => "volt ampere"
    case kV => "kilovolt"
    case V => "volt"
    case kA => "kiloampere"
    case A => "ampere"
    case pf => "Power Factor"
  }

  /** The key of a unit in the `upper_units_to_uom` table. */
  function UpperName(u: Uom): string {
    match u
    case MWh => "MWH"
    case kWh => "KWH"
    case Wh => "WH"
    case MVArh => "MVARH"
    case kVArh => "KVARH"
    case VArh => "VARH"
    case MVAr => "MVAR"
    case kVAr => "KVAR"
    case VAr => "VAR"
    case MW => "MW"
    case kW => "KW"
    case W => "W"
    case MVAh => "MVAH"
    case kVAh => "KVAH"
    case VAh => "VAH"
    case MVA => "MVA"
    case kVA => "KVA"
    case VA => "VA"
    case kV => "KV"
    case V => "V"
    case kA => "KA"
    case A => "A"
    case pf => "PF"
  }

  /**
   * `units[name]`: the unit whose key is `name`, if any. The keys are tried
   * by their first letter.
   */
  function UnitNamed(name: string): Option<Uom> {
    if name == [] then None
    else if name[0] == 'M' then
      if name == "MWh" then Some(MWh)
      else if name == "MVArh" then Some(MVArh)
      else if name == "MVAr" then Some(MVAr)
      else if name == "MW" then Some(MW)
      else if name == "MVAh" then Some(MVAh)
      else if name == "MVA" then Some(MVA)
      else None
    else if name[0] == 'k' then
      if name == "kWh" then Some(kWh)
      else if name == "kVArh" then Some(kVArh)
      else if name == "kVAr" then Some(kVAr)
      else if name == "kW" then Some(kW)
      else if name == "kVAh" then Some(kVAh)
      else if name == "kVA" then Some(kVA)
      else if name == "kV" then Some(kV)
      else if name == "kA" then Some(kA)
      else None
    else if name[0] == 'W' then
      if name == "Wh" then Some(Wh)
      else if name == "W" then Some(W)
      else None
    else if name[0] == 'V' then
      if name == "VArh" then Some(VArh)
      else if name == "VAr" then Some(VAr)
      else if name == "VAh" then Some(VAh)
      else if name == "VA" then Some(VA)
      else if name == "V" then Some(V)
      else None
    else if name[0] == 'A' then
      if name == "A" then Some(A)
      else None
    else if name[0] == 'p' then
      if name == "pf" then Some(pf)
      else None
    else None
  }

  /** `upper_units_to_uom[upper]`: the unit listed under the upper-case key `upper`, if any. */
  function UnitFromUpper(upper: string): Option<Uom> {
    if upper == [] then None
    else if upper[0] == 'M' then
      if upper == "MWH" then Some(MWh)
      else if upper == "MVARH" then Some(MVArh)
      else if upper == "MVAR" then Some(MVAr)
      else if upper == "MW" then Some(MW)
      else if upper == "MVAH" then Some(MVAh)
      else if upper == "MVA" then Some(MVA)
      else None
    else if upper[0] == 'K' then
      if upper == "KWH" then Some(kWh)
      else if upper == "KVARH" then Some(kVArh)
      else if upper == "KVAR" then Some(kVAr)
      else if upper == "KW" then Some(kW)
      else if upper == "KVAH" then Some(kVAh)
      else if upper == "KVA" then Some(kVA)
      else if upper == "KV" then Some(kV)
      else if upper == "KA" then Some(kA)
      else None
    else if upper[0] == 'W' then
      if upper == "WH" then Some(Wh)
      else if upper == "W" then Some(W)
      else None
    else if upper[0] == 'V' then
      if upper == "VARH" then Some(VArh)
      else if upper == "VAR" then Some(VAr)
      else if upper == "VAH" then Some(VAh)
      else if upper == "VA" then Some(VA)
      else if upper == "V" then Some(V)
      else None
    else if upper[0] == 'A' then
      if upper == "A" then Some(A)
      else None
    else if upper[0] == 'P' then
      if upper == "PF" then Some(pf)
      else None
    else None
  }

  /** `toUpperCase` on the ASCII letters. */
  function UpperChar(c: char): char {
    if 'a' <= c <= 'z' then (c as int - 32) as char else c
  }

  function ToUpper(s: string): (u: string)
    ensures |u| == |s|
    ensures forall i :: 0 <= i < |s| ==> u[i] == UpperChar(s[i])
  {
    if s == [] then [] else [UpperChar(s[0])] + ToUpper(s[1..])
  }

  function Lookup(uom: Option<string>): Option<Uom> {
    if uom.Some? then UnitNamed(uom.value) else None
  }

  function GetCanonicalUnitName(uom: Option<string>): Option<string> {
    match Lookup(uom)
    case None => None
    case Some(u) => Some(Name(Info(u).canonical))
  }

  function ConvertToCanonicalUnit(uom: Option<string>, value: real): Option<real> {
    match Lookup(uom)
    case None => None
    case Some(u) => Some(value * Info(u).multiplierToCanonical)
  }

  function GetIsAdditive(uom: Option<string>): Option<bool> {
    match Lookup(uom)
    case None => None
    case Some(u) => Some(Info(u).additive)
  }

  function GetUomFromUpper(upper: Option<string>): Option<string> {
    if upper.Some? && UnitFromUpper(upper.value).Some? then Some(Name(UnitFromUpper(upper.value).value)) else None
  }

  /** The `units` lookup finds each unit under its own name and only there. */
  lemma UnitNamedIsName(name: string, u: Uom)
    ensures UnitNamed(name) == Some(u) <==> name == Name(u)
  {
    UnitNamedOfName(u);
    UnitNamedFound(name);
  }

  lemma UnitNamedOfName(u: Uom)
    ensures UnitNamed(Name(u)) == Some(u)
  {
  }

  lemma UnitNamedFound(name: string)
    ensures UnitNamed(name).Some? ==> Name(UnitNamed(name).value) == name
  {
  }

  /** The `upper_units_to_uom` lookup finds each unit under its upper-case key and only there. */
  lemma UnitFromUpperIsUpperName(upper: string, u: Uom)
    ensures UnitFromUpper(upper) == Some(u) <==> upper == UpperName(u)
  {
    UnitFromUpperOfName(u);
    UnitFromUpperFound(upper);
  }

  lemma UnitFromUpperOfName(u: Uom)
    ensures UnitFromUpper(UpperName(u)) == Some(u)
  {
  }

  lemma UnitFromUpperFound(upper: string)
    ensures UnitFromUpper(upper).Some? ==> UpperName(UnitFromUpper(upper).value) == upper
  {
  }

  /** Each upper-case key is the upper case of its unit's name. */
  lemma UpperNameIsToUpper(u: Uom)
    ensures ToUpper(Name(u)) == UpperName(u)
  {
  }

  /**
   * Every name found under an upper-case key is a key of `units` whose upper
   * case is that key.
   */
  lemma UpperTableSound(upper: string)
    ensures GetUomFromUpper(Some(upper)).Some? ==>
      Lookup(GetUomFromUpper(Some(upper))).Some? && ToUpper(GetUomFromUpper(Some(upper)).value) == upper
  {
    if UnitFromUpper(upper).Some? {
      var u := UnitFromUpper(upper).value;
      UnitFromUpperFound(upper);
      UnitNamedOfName(u);
      UpperNameIsToUpper(u);
    }
  }

  /** Every unit of `units` is found from the upper case of its name. */
  lemma UpperTableComplete(u: Uom)
    ensures GetUomFromUpper(Some(ToUpper(Name(u)))) == Some(Name(u))
  {
    UpperNameIsToUpper(u);
    UnitFromUpperOfName(u);
  }

  lemma NameInjective(u: Uom, v: Uom)
    ensures Name(u) == Name(v) ==> u == v
  {
    UnitNamedIsName(Name(u), v);
    UnitNamedIsName(Name(u), u);
  }

  /** Canonical units are their own canonical unit, with multiplier 1 and the same additivity. */
  lemma CanonicalIsFixedPoint(u: Uom)
    ensures Info(Info(u).canonical).canonical == Info(u).canonical
    ensures Info(Info(u).canonical).multiplierToCanonical == 1.0
    ensures Info(Info(u).canonical).additive == Info(u).additive
  {
    CanonicalOfCanonical(u);
    CanonicalMultiplier(u);
    CanonicalAdditive(u);
  }

  lemma CanonicalOfCanonical(u: Uom)
    ensures Info(Info(u).canonical).canonical == Info(u).canonical
  {
  }

  lemma CanonicalMultiplier(u: Uom)
    ensures Info(Info(u).canonical).multiplierToCanonical == 1.0
  {
  }

  lemma CanonicalAdditive(u: Uom)
    ensures Info(Info(u).canonical).additive == Info(u).additive
  {
  }

  /** The energy units, whose names end in `h`, are exactly the additive ones. */
  lemma AdditiveIffEnergy(u: Uom)
    ensures Info(u).additive <==> Name(u)[|Name(u)| - 1] == 'h'
  {
  }

  lemma CanonicalNameIdempotent(uom: Option<string>)
    ensures GetCanonicalUnitName(GetCanonicalUnitName(uom)) == GetCanonicalUnitName(uom)
  {
    if Lookup(uom).Some? {
      var u := Lookup(uom).value;
      CanonicalIsFixedPoint(u);
      UnitNamedIsName(Name(Info(u).canonical), Info(u).canonical);
    }
  }

  lemma AdditiveWithinFamily(uom: Option<string>)
    ensures GetIsAdditive(GetCanonicalUnitName(uom)) == GetIsAdditive(uom)
  {
    if Lookup(uom).Some? {
      var u := Lookup(uom).value;
      CanonicalIsFixedPoint(u);
      UnitNamedIsName(Name(Info(u).canonical), Info(u).canonical);
    }
  }

  /** Converting a known unit multiplies by its multiplier; unknown units give `None`. */
  lemma ConvertScales(uom: Option<string>, value: real)
    ensures ConvertToCanonicalUnit(uom, value).Some? <==> GetCanonicalUnitName(uom).Some?
    ensures Lookup(uom).Some? ==>
      ConvertToCanonicalUnit(uom, value) == Some(value * Info(Lookup(uom).value).multiplierToCanonical)
  {
  }

  /** Values already in a canonical unit are left unchanged. */
  lemma ConvertCanonicalIsIdentity(uom: Option<string>, value: real)
    requires GetCanonicalUnitName(uom).Some?
    ensures ConvertToCanonicalUnit(GetCanonicalUnitName(uom), value) == Some(value)
  {
    var u := Lookup(uom).value;
    CanonicalIsFixedPoint(u);
    UnitNamedIsName(Name(Info(u).canonical), Info(u).canonical);
  }

  /** A missing or unknown unit gives `None` from every lookup. */
  lemma UnknownUnitIsNone(uom: Option<string>, value: real)
    requires uom.None? || forall u :: uom.value != Name(u)
    ensures GetCanonicalUnitName(uom).None?
    ensures ConvertToCanonicalUnit(uom, value).None?
    ensures GetIsAdditive(uom).None?
  {
    if uom.Some? && UnitNamed(uom.value).Some? {
      UnitNamedIsName(uom.value, UnitNamed(uom.value).value);
    }
  }

  lemma UnknownUpperIsNone(upper: Option<string>)
    requires upper.None? || forall u :: upper.value != UpperName(u)
    ensures GetUomFromUpper(upper).None?
  {
    if upper.Some? && UnitFromUpper(upper.value).Some? {
      UnitFromUpperIsUpperName(upper.value, UnitFromUpper(upper.value).value);
    }
  }

  /** The cases the unit tests check. */
  lemma TestedMappings()
    ensures GetCanonicalUnitName(None).None?
    ensures GetCanonicalUnitName(Some("xxx")).None?
    ensures GetCanonicalUnitName(Some("kWh")) == Some("kWh")
    ensures GetCanonicalUnitName(Some("MWh")) == Some("kWh")
    ensures ConvertToCanonicalUnit(None, 123.45).None?
    ensures ConvertToCanonicalUnit(Some("Wh"), 123.45) == Some(0.12345)
    ensures ConvertToCanonicalUnit(Some("MWh"), 123.45) == Some(123450.0)
    ensures ConvertToCanonicalUnit(Some("kWh"), 123.45) == Some(123.45)
    ensures GetIsAdditive(Some("kWh")) == Some(true)
    ensures GetIsAdditive(Some("kW")) == Some(false)
    ensures GetIsAdditive(Some("xyz")).None?
    ensures GetUomFromUpper(Some("KWH")) == Some("kWh")
  {
  }
}
