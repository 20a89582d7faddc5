/** The engine's static reference data: the selectable branches and
    programmes, and the descriptive records of named missile systems and
    naval assets (Dashboard.py, define_branches_options .. define_naval_assets). */
module Catalog {
  import opened Wrappers
  import opened Sequences

  /** The selectable military branches, in display order. */
  function Branches(): (r: seq<string>)
    ensures |r| == 8 && Distinct(r)
  {
    [ "Forces Armées Indiennes", "Armée de Terre Indienne", "Marine Indienne",
      "Force Aérienne Indienne", "Forces Stratégiques", "Garde Côtière Indienne",
      "Forces Spéciales", "Commandement des Forces Intégrées" ]
  }

  /** The selectable strategic programmes, in display order. */
  function Programmes(): (r: seq<string>)
    ensures |r| == 7 && Distinct(r)
  {
    [ "Programme Nucléaire Stratégique", "Modernisation des Forces",
      "Make in India - Défense", "Défense Aérienne Intégrée",
      "Maritime Domain Awareness", "Cybersécurité", "Espace Militaire" ]
  }

  /** No name is both a branch and a programme. */
  lemma BranchesAndProgrammesDisjoint()
    ensures forall b, p :: b in Branches() && p in Programmes() ==> b != p
    ensures Distinct(Branches() + Programmes())
  {
    var bs, ps := Branches(), Programmes();
    var all := bs + ps;
    forall i, j | 0 <= i < j < |all| ensures all[i] != all[j] {
      if j < |bs| {
      } else if i >= |bs| {
        assert all[i] == ps[i - |bs|] && all[j] == ps[j - |bs|];
      } else {
        assert all[j] == ps[j - |bs|];
      }
    }
  }

  /** The warhead entry of a missile record: a count, or a textual description. */
  datatype Warheads = WarheadCount(count: nat) | WarheadKind(description: string)

  /** A missile system's record; `warheads` and `speed` are present only on
      some records. */
  datatype MissileRecord = MissileRecord(
    kind: string, rangeKm: nat, warheads: Option<Warheads>, speed: Option<string>, status: string)

  /** A naval asset's record; exactly one of the four armament-like entries is
      present on each record. */
  datatype NavalRecord = NavalRecord(
    kind: string, displacement: nat, aircraft: Option<nat>, armament: Option<string>,
    missiles: Option<string>, torpedoes: Option<string>, status: string)

  function MissileSystems(): map<string, MissileRecord> {
    map[
      "Agni-V" := MissileRecord("ICBM", 5000, Some(WarheadCount(3)), None, "Opérationnel"),
      "Agni-IV" := MissileRecord("IRBM", 4000, Some(WarheadCount(1)), None, "Opérationnel"),
      "Agni-III" := MissileRecord("IRBM", 3000, Some(WarheadCount(1)), None, "Opérationnel"),
      "Prithvi-II" := MissileRecord("MRBM", 350, Some(WarheadKind("Conventionnelle/Nucléaire")), None, "Opérationnel"),
      "BrahMos" := MissileRecord("Missile de Croisière", 450, None, Some("Mach 2.8"), "Opérationnel")
    ]
  }

  function NavalAssets(): map<string, NavalRecord> {
    map[
      "INS Vikramaditya" := NavalRecord("Porte-avions", 45000, Some(36), None, None, None, "Opérationnel"),
      "INS Vikrant" := NavalRecord("Porte-avions", 40000, Some(30), None, None, None, "Opérationnel"),
      "INS Kolkata" := NavalRecord("Destroyer", 7500, None, Some("Brahmos"), None, None, "Opérationnel"),
      "INS Arihant" := NavalRecord("Sous-marin Nucléaire", 6000, None, None, Some("K-15"), None, "Opérationnel"),
      "INS Chakra" := NavalRecord("Sous-marin Nucléaire", 8000, None, None, None, Some("Type 53"), "Opérationnel")
    ]
  }

  /** The record of a named missile system, or None for a name not in the catalogue. */
  function LookupMissile(name: string): (r: Option<MissileRecord>)
    ensures r.Some? <==> name in {"Agni-V", "Agni-IV", "Agni-III", "Prithvi-II", "BrahMos"}
    ensures r.Some? ==> r.value.status == "Opérationnel" && 350 <= r.value.rangeKm <= 5000
  {
    var m := MissileSystems();
    if name in m then Some(m[name]) else None
  }

  /** The record of a named naval asset, or None for a name not in the catalogue. */
  function LookupNavalAsset(name: string): (r: Option<NavalRecord>)
    ensures r.Some? <==> name in {"INS Vikramaditya", "INS Vikrant", "INS Kolkata", "INS Arihant", "INS Chakra"}
    ensures r.Some? ==> r.value.status == "Opérationnel" && 6000 <= r.value.displacement <= 45000
  {
    var m := NavalAssets();
    if name in m then Some(m[name]) else None
  }

  /** Agni-V has the longest range in the missile catalogue. */
  lemma AgniVLongestRange(name: string)
    requires LookupMissile(name).Some?
    ensures LookupMissile(name).value.rangeKm <= LookupMissile("Agni-V").value.rangeKm == 5000
  {
  }

  /** Every naval record carries exactly one armament-like entry. */
  lemma NavalRecordsHaveOneArmament(name: string)
    requires LookupNavalAsset(name).Some?
    ensures var a := LookupNavalAsset(name).value;
      (if a.aircraft.Some? then 1 else 0) + (if a.armament.Some? then 1 else 0)
      + (if a.missiles.Some? then 1 else 0) + (if a.torpedoes.Some? then 1 else 0) == 1
  {
  }
}
