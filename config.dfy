/** Configuration resolution: a fixed table from four selection names to
    partial configuration records, a generic record for every other name,
    and the defaults the simulators apply to keys a record leaves out
    (Dashboard.py, get_advanced_config and the `config.get` calls of the
    simulators). */
module Config {
  import opened Wrappers
  import Catalog

  /** A resolved configuration. The base values are optional because some
      records of the source leave them out; `priorities` keeps the source's
      list of priority tags, membership in which is an exact string match.
      Descriptive entries (doctrines, deployed systems, ...) are not read by
      the generators and are not represented. */
  datatype Config = Config(
    kind: string,
    budgetBase: Option<real>,
    personnelBase: Option<real>,
    exercisesBase: Option<real>,
    priorities: seq<string>)

  /** Defaults of the simulators for a key absent from the record. */
  const DefaultBudget: real := 60.0
  const DefaultPersonnel: real := 1300.0
  const DefaultExercises: real := 80.0

  /** The four configured selections. */
  function KnownConfigs(): map<string, Config> {
    map[
      "Forces Armées Indiennes" := Config("armee_totale", Some(70.0), Some(1400.0), Some(120.0),
        ["nucleaire", "modernisation", "maritime", "cyber", "conventionnel"]),
      "Forces Stratégiques" := Config("branche_strategique", None, Some(8.0), Some(15.0),
        ["triade_nucleaire", "missiles_balistiques", "sous_marins"]),
      "Marine Indienne" := Config("branche_navale", None, Some(67.0), Some(40.0),
        ["porte_avions", "sous_marins", "lutte_anti_sous_marine", "projection"]),
      "Programme Nucléaire Stratégique" := Config("programme_strategique", Some(2.5), None, None,
        ["triade_nucleaire", "missiles_intercontinentaux", "sous_marins"])
    ]
  }

  /** The record returned for every unconfigured selection. */
  const GenericConfig: Config :=
    Config("branche", None, Some(100.0), Some(25.0), ["defense_generique"])

  /** Resolves a selection name; never fails. The generic record is returned
      exactly when the name is not one of the four configured ones. */
  function ResolveConfig(selection: string): (c: Config)
    ensures c == GenericConfig <==> selection !in KnownConfigs()
    ensures |c.priorities| > 0
  {
    var configs := KnownConfigs();
    if selection in configs then configs[selection] else GenericConfig
  }

  /** `config.get('budget_base', 60.0)`. */
  function BudgetBase(c: Config): real { c.budgetBase.GetOr(DefaultBudget) }

  /** `config.get('personnel_base', 1300)`. */
  function PersonnelBase(c: Config): real { c.personnelBase.GetOr(DefaultPersonnel) }

  /** `config.get('exercices_base', 80)`. */
  function ExercisesBase(c: Config): real { c.exercisesBase.GetOr(DefaultExercises) }

  /** The effective bases of every selection: a default is used only where
      the resolved record has no entry for that key. */
  lemma EffectiveBases(selection: string)
    ensures var c := ResolveConfig(selection);
      (BudgetBase(c), PersonnelBase(c), ExercisesBase(c)) ==
        if selection == "Forces Armées Indiennes" then (70.0, 1400.0, 120.0)
        else if selection == "Forces Stratégiques" then (60.0, 8.0, 15.0)
        else if selection == "Marine Indienne" then (60.0, 67.0, 40.0)
        else if selection == "Programme Nucléaire Stratégique" then (2.5, 1300.0, 80.0)
        else (60.0, 100.0, 25.0)
  {
  }

  /** A default replaces a base value only when the record lacks that key;
      a present key is always used as is. */
  lemma DefaultsOnlyWhenAbsent(c: Config)
    ensures c.budgetBase.Some? ==> BudgetBase(c) == c.budgetBase.value
    ensures c.budgetBase.None? ==> BudgetBase(c) == 60.0
    ensures c.personnelBase.Some? ==> PersonnelBase(c) == c.personnelBase.value
    ensures c.personnelBase.None? ==> PersonnelBase(c) == 1300.0
    ensures c.exercisesBase.Some? ==> ExercisesBase(c) == c.exercisesBase.value
    ensures c.exercisesBase.None? ==> ExercisesBase(c) == 80.0
  {
  }

  /** Every unconfigured name, including the empty string and every other
      catalogue entry, gets the generic record. */
  lemma UnknownSelectionFallsBack(selection: string)
    requires selection !in {"Forces Armées Indiennes", "Forces Stratégiques",
                            "Marine Indienne", "Programme Nucléaire Stratégique"}
    ensures ResolveConfig(selection) == Config("branche", None, Some(100.0), Some(25.0), ["defense_generique"])
    ensures BudgetBase(ResolveConfig(selection)) == 60.0
  {
  }

  /** The four configured names all appear in the selection catalogues. */
  lemma ConfiguredSelectionsAreCatalogued(selection: string)
    requires selection in KnownConfigs()
    ensures selection in Catalog.Branches() + Catalog.Programmes()
  {
    assert Catalog.Branches()[0] == "Forces Armées Indiennes";
    assert Catalog.Branches()[2] == "Marine Indienne";
    assert Catalog.Branches()[4] == "Forces Stratégiques";
    assert Catalog.Programmes()[0] == "Programme Nucléaire Stratégique";
  }

  /** The base values are positive for every selection. */
  lemma BasesPositive(selection: string)
    ensures var c := ResolveConfig(selection);
      BudgetBase(c) > 0.0 && PersonnelBase(c) > 0.0 && ExercisesBase(c) > 0.0
  {
    EffectiveBases(selection);
  }
}
