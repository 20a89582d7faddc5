/** Dataset assembly (Dashboard.py, generate_advanced_data): the year column
    2000..2027, fourteen base indicator columns, and four optional groups of
    columns, each added only when its exact tag is among the resolved
    configuration's priorities. The table is an ordered list of column
    names with a map from name to column, as a Python dict keeps them. */
module Assembler {
  import opened Config
  import opened Formulas
  import opened Series
  import Simulators
  import opened Sequences

  /** A column of the table: integer values where the source computes
      integers, real values where it computes floats. */
  datatype Column = Ints(ints: seq<int>) | Reals(reals: seq<real>)

  function Rows(c: Column): nat {
    match c
    case Ints(s) => |s|
    case Reals(s) => |s|
  }

  /** A named column, an entry of a dict literal or of `dict.update`. */
  type Entry = (string, Column)

  /** Column names in insertion order, and the columns by name. */
  datatype Table = Table(columns: seq<string>, data: map<string, Column>)

  const EmptyTable: Table := Table([], map[])

  /** `data[name] = column`: a new name goes to the end of the order, an
      existing one keeps its place and gets the new column. */
  function Put(t: Table, name: string, c: Column): (r: Table)
    ensures name in r.data && r.data[name] == c
    ensures forall n :: n != name ==> (n in r.data <==> n in t.data)
    ensures forall n :: n != name && n in t.data ==> r.data[n] == t.data[n]
    ensures t.columns <= r.columns && |r.columns| <= |t.columns| + 1
    ensures name !in t.data ==> r.columns == t.columns + [name]
    ensures name in t.data ==> r.columns == t.columns
  {
    Table(if name in t.data then t.columns else t.columns + [name], t.data[name := c])
  }

  /** `data.update(entries)`, entry by entry. */
  function Update(t: Table, es: seq<Entry>): (r: Table)
    ensures t.columns <= r.columns && |r.columns| <= |t.columns| + |es|
    ensures forall n :: n in t.data ==> n in r.data
    decreases |es|
  {
    if |es| == 0 then t else Update(Put(t, es[0].0, es[0].1), es[1..])
  }

  /** A dict literal. */
  function FromEntries(es: seq<Entry>): Table { Update(EmptyTable, es) }

  function Names(es: seq<Entry>): (r: seq<string>)
    ensures |r| == |es|
    ensures forall i :: 0 <= i < |es| ==> r[i] == es[i].0
  {
    seq(|es|, i requires 0 <= i < |es| => es[i].0)
  }

  /** Two updates in a row are one update with both lists of entries. */
  lemma {:induction false} UpdateConcat(t: Table, a: seq<Entry>, b: seq<Entry>)
    ensures Update(Update(t, a), b) == Update(t, a + b)
    decreases |a|
  {
    if |a| > 0 {
      assert (a + b)[0] == a[0];
      assert (a + b)[1..] == a[1..] + b;
      UpdateConcat(Put(t, a[0].0, a[0].1), a[1..], b);
    } else {
      assert a + b == b;
    }
  }

  lemma NamesCons(es: seq<Entry>)
    requires |es| > 0
    ensures Names(es) == [es[0].0] + Names(es[1..])
  {
  }

  /** Entries whose names are new to `t` and pairwise distinct. */
  predicate Fresh(t: Table, es: seq<Entry>) {
    Distinct(Names(es)) && forall i :: 0 <= i < |es| ==> es[i].0 !in t.data
  }

  /** Dropping the first fresh entry leaves fresh entries for the table
      that has it. */
  lemma FreshTail(t: Table, es: seq<Entry>)
    requires |es| > 0 && Fresh(t, es)
    ensures Names(es[1..]) == Names(es)[1..]
    ensures es[0].0 !in Names(es[1..])
    ensures Fresh(Put(t, es[0].0, es[0].1), es[1..])
  {
    var rest := es[1..];
    assert Names(rest) == Names(es)[1..];
    forall k | 0 <= k < |rest| ensures rest[k].0 != es[0].0 {
      assert Names(es)[k + 1] != Names(es)[0];
    }
  }

  /** Every name of the updated table was there already or is an entry's. */
  lemma {:induction false} UpdateKeys(t: Table, es: seq<Entry>)
    ensures forall n :: n in Update(t, es).data <==> n in t.data || n in Names(es)
    decreases |es|
  {
    if |es| > 0 {
      UpdateKeys(Put(t, es[0].0, es[0].1), es[1..]);
      assert Names(es) == [es[0].0] + Names(es[1..]);
    }
  }

  /** A column no entry names keeps its value. */
  lemma {:induction false} UpdateKeeps(t: Table, es: seq<Entry>, n: string)
    requires n in t.data && n !in Names(es)
    ensures n in Update(t, es).data && Update(t, es).data[n] == t.data[n]
    decreases |es|
  {
    if |es| > 0 {
      assert Names(es) == [es[0].0] + Names(es[1..]);
      UpdateKeeps(Put(t, es[0].0, es[0].1), es[1..], n);
    }
  }

  /** Fresh entries are appended to the order of names. */
  lemma {:induction false} UpdateColumns(t: Table, es: seq<Entry>)
    requires Fresh(t, es)
    ensures Update(t, es).columns == t.columns + Names(es)
    decreases |es|
  {
    if |es| > 0 {
      var t' := Put(t, es[0].0, es[0].1);
      var rest := es[1..];
      assert Fresh(t', rest) && t'.columns == t.columns + [es[0].0] by {
        FreshTail(t, es);
      }
      assert Update(t', rest).columns == t'.columns + Names(rest) by {
        UpdateColumns(t', rest);
      }
      assert t.columns + Names(es) == t'.columns + Names(rest) by {
        NamesCons(es);
        AppendAssoc(t.columns, [es[0].0], Names(rest));
      }
      assert Update(t, es) == Update(t', rest);
    }
  }

  /** Each fresh entry's column is the one stored under its name. */
  lemma {:induction false} UpdateValues(t: Table, es: seq<Entry>, i: int)
    requires Fresh(t, es) && 0 <= i < |es|
    ensures es[i].0 in Update(t, es).data && Update(t, es).data[es[i].0] == es[i].1
    decreases |es|
  {
    var t' := Put(t, es[0].0, es[0].1);
    FreshTail(t, es);
    if i > 0 {
      UpdateValues(t', es[1..], i - 1);
    } else {
      UpdateKeeps(t', es[1..], es[0].0);
    }
  }

  /** Updating with entries of fresh, distinct names appends the names in
      order and maps each to its column, leaving existing columns alone. */
  lemma UpdateFresh(t: Table, es: seq<Entry>)
    requires Distinct(Names(es))
    requires forall i :: 0 <= i < |es| ==> es[i].0 !in t.data
    ensures Update(t, es).columns == t.columns + Names(es)
    ensures forall n :: n in Update(t, es).data <==> n in t.data || n in Names(es)
    ensures forall n :: n in t.data ==> Update(t, es).data[n] == t.data[n]
    ensures forall i :: 0 <= i < |es| ==> Update(t, es).data[es[i].0] == es[i].1
  {
    UpdateKeys(t, es);
    UpdateColumns(t, es);
    forall n | n in t.data ensures Update(t, es).data[n] == t.data[n] {
      assert n !in Names(es);
      UpdateKeeps(t, es, n);
    }
    forall i | 0 <= i < |es| ensures Update(t, es).data[es[i].0] == es[i].1 {
      UpdateValues(t, es, i);
    }
  }

  // ---------------------------------------------------------------------
  // The columns

  /** `list(range(2000, 2028))`. */
  const YearRange: seq<int> := Range(2000, 2028)

  /** The year column: 28 contiguous, increasing years 2000..2027. */
  lemma YearRangeContiguous()
    ensures |YearRange| == 28
    ensures YearRange[0] == 2000 && YearRange[27] == 2027
    ensures forall i :: 0 <= i < 28 ==> YearRange[i] == 2000 + i
    ensures forall i, j :: 0 <= i < j < 28 ==> YearRange[i] < YearRange[j]
  {
  }

  /** The base columns, always present, in the source's order. The names
      are also listed on their own in BaseNames (and GroupNames below),
      because the facts about names (distinctness, the column count per
      selection) do not depend on the years or the configuration and are
      cheaper to prove on the bare literals; BaseEntryNames and
      GatedEntryNames prove the two lists agree. */
  function BaseEntries(years: seq<int>, c: Config): seq<Entry> {
    [ ("Annee", Ints(years)),
      ("Budget_Defense_Mds", Reals(Budget(years, c))),
      ("Personnel_Milliers", Reals(Personnel(years, c))),
      ("PIB_Militaire_Pourcent", Reals(GdpShare(years))),
      ("Exercices_Militaires", Reals(Exercises(years, c))),
      ("Readiness_Operative", Reals(Readiness(years))),
      ("Capacite_Dissuasion", Ints(Deterrence(years))),
      ("Temps_Mobilisation_Jours", Ints(Mobilisation(years))),
      ("Tests_Missiles", Ints(MissileTests(years))),
      ("Developpement_Technologique", Reals(RampSeries(years, Tech))),
      ("Capacite_Artillerie", Reals(RampSeries(years, Artillery))),
      ("Couverture_AD", Reals(RampSeries(years, AirDefence))),
      ("Resilience_Logistique", Ints(IntRampSeries(years, Logistics))),
      ("Cyber_Capabilities", Ints(IntRampSeries(years, CyberCapabilities))),
      ("Production_Armements", Reals(RampSeries(years, Production))) ]
  }

  function BaseNames(): seq<string> {
    [ "Annee", "Budget_Defense_Mds", "Personnel_Milliers", "PIB_Militaire_Pourcent",
      "Exercices_Militaires", "Readiness_Operative", "Capacite_Dissuasion",
      "Temps_Mobilisation_Jours", "Tests_Missiles", "Developpement_Technologique",
      "Capacite_Artillerie", "Couverture_AD", "Resilience_Logistique",
      "Cyber_Capabilities", "Production_Armements" ]
  }

  /** The optional column groups. */
  datatype Group = NuclearGroup | ModernisationGroup | MaritimeGroup | CyberGroup

  /** The exact priority tag that gates each group. */
  function Tag(g: Group): string {
    match g
    case NuclearGroup => "nucleaire"
    case ModernisationGroup => "modernisation"
    case MaritimeGroup => "maritime"
    case CyberGroup => "cyber"
  }

  /** The entries of each optional group. Only the nuclear group needs a
      non-empty year list (its submarine column takes `min(years)`); the
      requirement covers all four because the table is only ever built on
      the 28 years 2000..2027. */
  function GroupEntries(g: Group, years: seq<int>): seq<Entry>
    requires |years| > 0
  {
    match g
    case NuclearGroup =>
      [ ("Stock_Ogives_Nucleaires", Ints(Stockpile(years))),
        ("Portee_Max_Missiles_Km", Ints(MissileRange(years))),
        ("Capacite_Sous_Marine", Ints(SubmarineSeries(years))),
        ("Essais_Souterrains", Ints(IntRampSeries(years, Underground))) ]
    case ModernisationGroup =>
      [ ("Nouveaux_Systemes", Reals(RampSeries(years, NewSystems))),
        ("Taux_Modernisation", Reals(RampSeries(years, Modernisation))),
        ("Exportations_Armes", Reals(RampSeries(years, Exports))) ]
    case MaritimeGroup =>
      [ ("Navires_Combat", Ints(IntRampSeries(years, Fleet))),
        ("Portee_Projection_Nm", Ints(IntRampSeries(years, NavalRange))),
        ("Exercices_Combines", Ints(IntRampSeries(years, JointExercises))) ]
    case CyberGroup =>
      [ ("Attaques_Cyber_Reussies", Ints(IntRampSeries(years, CyberAttacks))),
        ("Reseau_Commandement_Cyber", Ints(IntRampSeries(years, CyberCommand))),
        ("Cyber_Defense_Niveau", Reals(RampSeries(years, CyberDefence))) ]
  }

  function GroupNames(g: Group): seq<string> {
    match g
    case NuclearGroup =>
      ["Stock_Ogives_Nucleaires", "Portee_Max_Missiles_Km", "Capacite_Sous_Marine", "Essais_Souterrains"]
    case ModernisationGroup => ["Nouveaux_Systemes", "Taux_Modernisation", "Exportations_Armes"]
    case MaritimeGroup => ["Navires_Combat", "Portee_Projection_Nm", "Exercices_Combines"]
    case CyberGroup => ["Attaques_Cyber_Reussies", "Reseau_Commandement_Cyber", "Cyber_Defense_Niveau"]
  }

  /** A group's entries when its tag is among the priorities, none otherwise. */
  function Gated(g: Group, years: seq<int>, c: Config): seq<Entry>
    requires |years| > 0
  {
    if Tag(g) in c.priorities then GroupEntries(g, years) else []
  }

  function GatedNames(g: Group, c: Config): seq<string> {
    if Tag(g) in c.priorities then GroupNames(g) else []
  }

  /** Every column of the table, in the order the source inserts them. */
  function Columns(years: seq<int>, c: Config): seq<Entry>
    requires |years| > 0
  {
    BaseEntries(years, c) + Gated(NuclearGroup, years, c) + Gated(ModernisationGroup, years, c)
      + Gated(MaritimeGroup, years, c) + Gated(CyberGroup, years, c)
  }

  /** The names of the columns for a configuration. */
  function ExpectedNames(c: Config): seq<string> {
    BaseNames() + GatedNames(NuclearGroup, c) + GatedNames(ModernisationGroup, c)
      + GatedNames(MaritimeGroup, c) + GatedNames(CyberGroup, c)
  }

  /** The table generated for a selection. */
  function Dataset(selection: string): Table {
    FromEntries(Columns(YearRange, ResolveConfig(selection)))
  }

  // ---------------------------------------------------------------------
  // Names

  lemma ColumnNames(years: seq<int>, c: Config)
    requires |years| > 0
    ensures Names(Columns(years, c)) == ExpectedNames(c)
  {
    var b := BaseEntries(years, c);
    var n, m, r, k := Gated(NuclearGroup, years, c), Gated(ModernisationGroup, years, c),
                      Gated(MaritimeGroup, years, c), Gated(CyberGroup, years, c);
    BaseEntryNames(years, c);
    GatedEntryNames(NuclearGroup, years, c);
    GatedEntryNames(ModernisationGroup, years, c);
    GatedEntryNames(MaritimeGroup, years, c);
    GatedEntryNames(CyberGroup, years, c);
    NamesConcat(b, n);
    NamesConcat(b + n, m);
    NamesConcat(b + n + m, r);
    NamesConcat(b + n + m + r, k);
  }

  lemma BaseEntryNames(years: seq<int>, c: Config)
    ensures Names(BaseEntries(years, c)) == BaseNames()
  {
  }

  lemma GatedEntryNames(g: Group, years: seq<int>, c: Config)
    requires |years| > 0
    ensures Names(Gated(g, years, c)) == GatedNames(g, c)
  {
    if Tag(g) in c.priorities {
      assert Names(GroupEntries(g, years)) == GroupNames(g);
    }
  }

  lemma NamesConcat(a: seq<Entry>, b: seq<Entry>)
    ensures Names(a + b) == Names(a) + Names(b)
  {
  }

  lemma BaseNamesDistinct()
    ensures Distinct(BaseNames())
  {
  }

  lemma GroupNamesDistinct(g: Group)
    ensures Distinct(GroupNames(g))
  {
  }

  lemma GroupNamesNotBase(g: Group)
    ensures forall n :: n in GroupNames(g) ==> n !in BaseNames()
  {
    var names := GroupNames(g);
    forall i | 0 <= i < |names| ensures names[i] !in BaseNames() {
      NotBaseName(names[i]);
    }
  }

  /** Every name of an optional group differs from every base name. */
  lemma NotBaseName(n: string)
    requires n in GroupNames(NuclearGroup) + GroupNames(ModernisationGroup)
      + GroupNames(MaritimeGroup) + GroupNames(CyberGroup)
    ensures n !in BaseNames()
  {
  }

  lemma GroupNamesDisjoint(g1: Group, g2: Group)
    requires g1 != g2
    ensures forall n :: n in GroupNames(g1) ==> n !in GroupNames(g2)
  {
  }

  /** No column name is used twice, whichever groups are present. */
  lemma ExpectedNamesDistinct(c: Config)
    ensures Distinct(ExpectedNames(c))
  {
    var b := BaseNames();
    var n, m, r, k := GatedNames(NuclearGroup, c), GatedNames(ModernisationGroup, c),
                      GatedNames(MaritimeGroup, c), GatedNames(CyberGroup, c);
    BaseNamesDistinct();
    GroupNamesDistinct(NuclearGroup);
    GroupNamesDistinct(ModernisationGroup);
    GroupNamesDistinct(MaritimeGroup);
    GroupNamesDistinct(CyberGroup);
    GroupNamesNotBase(NuclearGroup);
    GroupNamesNotBase(ModernisationGroup);
    GroupNamesNotBase(MaritimeGroup);
    GroupNamesNotBase(CyberGroup);
    GroupNamesDisjoint(NuclearGroup, ModernisationGroup);
    GroupNamesDisjoint(NuclearGroup, MaritimeGroup);
    GroupNamesDisjoint(NuclearGroup, CyberGroup);
    GroupNamesDisjoint(ModernisationGroup, MaritimeGroup);
    GroupNamesDisjoint(ModernisationGroup, CyberGroup);
    GroupNamesDisjoint(MaritimeGroup, CyberGroup);
    DistinctConcat(b, n);
    DistinctConcat(b + n, m);
    DistinctConcat(b + n + m, r);
    DistinctConcat(b + n + m + r, k);
  }

  /** A table built from entries with distinct names lists the names in
      order and maps each to its column. */
  lemma TableOfEntries(es: seq<Entry>)
    requires Distinct(Names(es))
    ensures FromEntries(es).columns == Names(es)
    ensures forall n :: n in FromEntries(es).data <==> n in Names(es)
    ensures forall i :: 0 <= i < |es| ==> FromEntries(es).data[es[i].0] == es[i].1
  {
    UpdateFresh(EmptyTable, es);
  }

  /** The shape of every table the assembler builds: the columns in the
      source's order, no name twice, and each name mapped to its generator's
      column. */
  lemma AssembledShape(years: seq<int>, c: Config)
    requires |years| > 0
    ensures var t := FromEntries(Columns(years, c));
      var es := Columns(years, c);
      && t.columns == ExpectedNames(c)
      && Distinct(t.columns)
      && (forall n :: n in t.data <==> n in t.columns)
      && (forall i :: 0 <= i < |es| ==> es[i].0 in t.data && t.data[es[i].0] == es[i].1)
  {
    var es := Columns(years, c);
    ColumnNames(years, c);
    ExpectedNamesDistinct(c);
    TableOfEntries(es);
  }

  /** The table generated for a selection has the shape above. */
  lemma DatasetShape(selection: string)
    ensures var c := ResolveConfig(selection);
      var t := Dataset(selection);
      && t.columns == ExpectedNames(c)
      && Distinct(t.columns)
      && (forall n :: n in t.data <==> n in t.columns)
  {
    AssembledShape(YearRange, ResolveConfig(selection));
  }

  // ---------------------------------------------------------------------
  // Tag gating and column counts

  /** A name is a column exactly when it is a base column or belongs to a
      group whose tag is among the priorities. */
  lemma InExpectedNames(c: Config, n: string)
    ensures n in ExpectedNames(c) <==>
      n in BaseNames() || exists h: Group :: Tag(h) in c.priorities && n in GroupNames(h)
  {
    if n in GatedNames(NuclearGroup, c) {
      assert Tag(NuclearGroup) in c.priorities && n in GroupNames(NuclearGroup);
    }
    if n in GatedNames(ModernisationGroup, c) {
      assert Tag(ModernisationGroup) in c.priorities && n in GroupNames(ModernisationGroup);
    }
    if n in GatedNames(MaritimeGroup, c) {
      assert Tag(MaritimeGroup) in c.priorities && n in GroupNames(MaritimeGroup);
    }
    if n in GatedNames(CyberGroup, c) {
      assert Tag(CyberGroup) in c.priorities && n in GroupNames(CyberGroup);
    }
    if h: Group :| Tag(h) in c.priorities && n in GroupNames(h) {
      assert n in GatedNames(h, c);
    }
  }

  /** A group's columns are all present exactly when its tag is among the
      priorities, and none of them is present otherwise: membership is an
      exact match on the whole tag. */
  lemma GroupPresentIff(c: Config, g: Group)
    ensures (forall n :: n in GroupNames(g) ==> n in ExpectedNames(c)) <==> Tag(g) in c.priorities
    ensures (exists n :: n in GroupNames(g) && n in ExpectedNames(c)) <==> Tag(g) in c.priorities
  {
    GroupNamesNotBase(g);
    forall n | n in GroupNames(g)
      ensures n in ExpectedNames(c) <==> Tag(g) in c.priorities
    {
      InExpectedNames(c, n);
      forall h: Group | h != g ensures n !in GroupNames(h) {
        GroupNamesDisjoint(g, h);
      }
    }
    assert GroupNames(g)[0] in GroupNames(g);
  }

  /** The number of columns: 15 base columns (the year and 14 indicators),
      4 for the nuclear group, 3 for each other group. */
  lemma ColumnCount(c: Config)
    ensures |ExpectedNames(c)| == 15
      + (if "nucleaire" in c.priorities then 4 else 0)
      + (if "modernisation" in c.priorities then 3 else 0)
      + (if "maritime" in c.priorities then 3 else 0)
      + (if "cyber" in c.priorities then 3 else 0)
  {
  }

  /** Which selections carry which group tags: only "Forces Armées Indiennes"
      carries any. "Forces Stratégiques" has "triade_nucleaire", which is not
      the tag "nucleaire". */
  lemma TagsPerSelection(selection: string, g: Group)
    ensures Tag(g) in ResolveConfig(selection).priorities <==> selection == "Forces Armées Indiennes"
  {
    var c := ResolveConfig(selection);
    if selection == "Forces Armées Indiennes" {
      assert c.priorities[0] == "nucleaire" && c.priorities[1] == "modernisation";
      assert c.priorities[2] == "maritime" && c.priorities[3] == "cyber";
    } else if selection == "Forces Stratégiques" {
      assert c.priorities == ["triade_nucleaire", "missiles_balistiques", "sous_marins"];
    } else if selection == "Marine Indienne" {
      assert c.priorities == ["porte_avions", "sous_marins", "lutte_anti_sous_marine", "projection"];
    } else if selection == "Programme Nucléaire Stratégique" {
      assert c.priorities == ["triade_nucleaire", "missiles_intercontinentaux", "sous_marins"];
    } else {
      assert c.priorities == ["defense_generique"];
    }
  }

  /** Only "Forces Armées Indiennes" gets every optional group (28 columns);
      every other selection, "Forces Stratégiques" included, gets the 15
      base columns alone. */
  lemma ColumnsPerSelection(selection: string)
    ensures |Dataset(selection).columns| == if selection == "Forces Armées Indiennes" then 28 else 15
    ensures selection != "Forces Armées Indiennes" ==> Dataset(selection).columns == BaseNames()
  {
    NameCountPerSelection(selection);
    if selection != "Forces Armées Indiennes" {
      BaseOnlyPerSelection(selection);
    }
    DatasetShape(selection);
  }

  lemma NameCountPerSelection(selection: string)
    ensures |ExpectedNames(ResolveConfig(selection))| == if selection == "Forces Armées Indiennes" then 28 else 15
  {
    ColumnCount(ResolveConfig(selection));
    TagsPerSelection(selection, NuclearGroup);
    TagsPerSelection(selection, ModernisationGroup);
    TagsPerSelection(selection, MaritimeGroup);
    TagsPerSelection(selection, CyberGroup);
  }

  lemma BaseOnlyPerSelection(selection: string)
    requires selection != "Forces Armées Indiennes"
    ensures ExpectedNames(ResolveConfig(selection)) == BaseNames()
  {
    TagsPerSelection(selection, NuclearGroup);
    TagsPerSelection(selection, ModernisationGroup);
    TagsPerSelection(selection, MaritimeGroup);
    TagsPerSelection(selection, CyberGroup);
  }

  // ---------------------------------------------------------------------
  // Row counts and values

  /** Every entry has `n` rows. */
  predicate AllRows(es: seq<Entry>, n: nat) {
    forall i :: 0 <= i < |es| ==> Rows(es[i].1) == n
  }

  lemma AllRowsConcat(a: seq<Entry>, b: seq<Entry>, n: nat)
    requires AllRows(a, n) && AllRows(b, n)
    ensures AllRows(a + b, n)
  {
    forall i | 0 <= i < |a + b| ensures Rows((a + b)[i].1) == n {
      if i >= |a| {
        assert (a + b)[i] == b[i - |a|];
      }
    }
  }

  /** Each column of the table has one row per year, provided the submarine
      column does, which is the only one built otherwise than elementwise. */
  lemma ColumnsRows(years: seq<int>, c: Config)
    requires |years| > 0
    requires |SubmarineSeries(years)| == |years|
    ensures AllRows(Columns(years, c), |years|)
  {
    var n := |years|;
    var b, nu, m, r, k := BaseEntries(years, c), Gated(NuclearGroup, years, c),
      Gated(ModernisationGroup, years, c), Gated(MaritimeGroup, years, c), Gated(CyberGroup, years, c);
    assert Columns(years, c) == b + nu + m + r + k;
    BaseRows(years, c);
    GatedRows(NuclearGroup, years, c);
    GatedRows(ModernisationGroup, years, c);
    GatedRows(MaritimeGroup, years, c);
    GatedRows(CyberGroup, years, c);
    AllRowsConcat(b, nu, n);
    AllRowsConcat(b + nu, m, n);
    AllRowsConcat(b + nu + m, r, n);
    AllRowsConcat(b + nu + m + r, k, n);
  }

  lemma BaseRows(years: seq<int>, c: Config)
    ensures AllRows(BaseEntries(years, c), |years|)
  {
  }

  lemma GatedRows(g: Group, years: seq<int>, c: Config)
    requires |years| > 0
    requires |SubmarineSeries(years)| == |years|
    ensures AllRows(Gated(g, years, c), |years|)
  {
    if Tag(g) in c.priorities {
      assert AllRows(GroupEntries(g, years), |years|);
    }
  }

  /** A table built from entries that all have `n` rows has only columns
      of `n` rows. */
  lemma TableRows(es: seq<Entry>, n: nat)
    requires Distinct(Names(es))
    requires AllRows(es, n)
    ensures forall k :: k in FromEntries(es).data ==> Rows(FromEntries(es).data[k]) == n
  {
    TableOfEntries(es);
    forall k | k in FromEntries(es).data ensures Rows(FromEntries(es).data[k]) == n {
      var i :| 0 <= i < |es| && Names(es)[i] == k;
    }
  }

  /** Every column of a generated table has one entry per year, 28 in all;
      for the submarine column this holds only because 19 values for the
      years from 2009 plus 9 zeros make 28. */
  lemma EveryColumnHas28Rows(selection: string)
    ensures var t := Dataset(selection);
      forall n :: n in t.data ==> Rows(t.data[n]) == 28
  {
    var c := ResolveConfig(selection);
    var es := Columns(YearRange, c);
    assert AllRows(es, 28) by {
      SubmarineOnYearRange(YearRange);
      ColumnsRows(YearRange, c);
    }
    assert Distinct(Names(es)) by {
      ColumnNames(YearRange, c);
      ExpectedNamesDistinct(c);
    }
    TableRows(es, 28);
  }

  /** In a table built from entries with distinct names, each entry's name
      maps to that entry's column. */
  lemma EntryInTable(es: seq<Entry>, e: Entry)
    requires Distinct(Names(es))
    requires e in es
    ensures e.0 in FromEntries(es).data && FromEntries(es).data[e.0] == e.1
  {
    TableOfEntries(es);
    var i :| 0 <= i < |es| && es[i] == e;
  }

  /** Each base column of an assembled table holds its generator's series. */
  lemma BaseColumnsInTable(years: seq<int>, c: Config)
    requires |years| > 0
    ensures var t := FromEntries(Columns(years, c));
      forall e :: e in BaseEntries(years, c) ==> e.0 in t.data && t.data[e.0] == e.1
  {
    var es := Columns(years, c);
    ColumnNames(years, c);
    ExpectedNamesDistinct(c);
    forall e | e in BaseEntries(years, c)
      ensures e.0 in FromEntries(es).data && FromEntries(es).data[e.0] == e.1
    {
      EntryInTable(es, e);
    }
  }

  /** Each column of a group whose tag is among the priorities holds its
      generator's series. */
  lemma GroupColumnsInTable(years: seq<int>, c: Config, g: Group)
    requires |years| > 0
    requires Tag(g) in c.priorities
    ensures var t := FromEntries(Columns(years, c));
      forall e :: e in GroupEntries(g, years) ==> e.0 in t.data && t.data[e.0] == e.1
  {
    var es := Columns(years, c);
    ColumnNames(years, c);
    ExpectedNamesDistinct(c);
    forall e | e in GroupEntries(g, years)
      ensures e.0 in FromEntries(es).data && FromEntries(es).data[e.0] == e.1
    {
      assert e in Gated(g, years, c);
      EntryInTable(es, e);
    }
  }

  /** In the table of "Forces Armées Indiennes" the year column holds the
      years 2000..2027, and the stockpile column the generator's values,
      with 150 + 10 * 3 = 180 in the row of 2018. */
  lemma FullArmyValues(selection: string)
    requires selection == "Forces Armées Indiennes"
    ensures var t := Dataset(selection);
      && "Annee" in t.data && t.data["Annee"] == Ints(YearRange)
      && "Stock_Ogives_Nucleaires" in t.data && t.data["Stock_Ogives_Nucleaires"] == Ints(Stockpile(YearRange))
      && |Stockpile(YearRange)| == 28 && Stockpile(YearRange)[18] == 180
  {
    var c := ResolveConfig(selection);
    TagsPerSelection(selection, NuclearGroup);
    BaseColumnsInTable(YearRange, c);
    GroupColumnsInTable(YearRange, c, NuclearGroup);
    assert ("Annee", Ints(YearRange)) in BaseEntries(YearRange, c);
    assert ("Stock_Ogives_Nucleaires", Ints(Stockpile(YearRange))) in GroupEntries(NuclearGroup, YearRange);
    assert YearRange[18] == 2018;
  }

  // ---------------------------------------------------------------------
  // The assembler

  /** One conditional `update` of the assembler: the group's columns are
      added when its tag is among the priorities. */
  function GatedUpdate(t: Table, years: seq<int>, tagged: bool, g: Group): Table
    requires |years| > 0
  {
    if tagged then Update(t, GroupEntries(g, years)) else t
  }

  /** The four conditional updates after the dict literal of the base
      columns, each applied when its group's tag is among the priorities,
      build the table of all the columns. */
  lemma GatedUpdates(years: seq<int>, c: Config, nuclear: bool, modernisation: bool, maritime: bool, cyber: bool)
    requires |years| > 0
    requires nuclear == (Tag(NuclearGroup) in c.priorities)
    requires modernisation == (Tag(ModernisationGroup) in c.priorities)
    requires maritime == (Tag(MaritimeGroup) in c.priorities)
    requires cyber == (Tag(CyberGroup) in c.priorities)
    ensures GatedUpdate(GatedUpdate(GatedUpdate(GatedUpdate(FromEntries(BaseEntries(years, c)),
              years, nuclear, NuclearGroup), years, modernisation, ModernisationGroup),
              years, maritime, MaritimeGroup), years, cyber, CyberGroup)
            == FromEntries(Columns(years, c))
  {
    var b := BaseEntries(years, c);
    var g1, g2, g3, g4 := Gated(NuclearGroup, years, c), Gated(ModernisationGroup, years, c),
      Gated(MaritimeGroup, years, c), Gated(CyberGroup, years, c);
    var t0 := FromEntries(b);
    var t1 := GatedUpdate(t0, years, nuclear, NuclearGroup);
    assert t1 == FromEntries(b + g1) by { GatedStep(t0, b, years, c, NuclearGroup); }
    var t2 := GatedUpdate(t1, years, modernisation, ModernisationGroup);
    assert t2 == FromEntries(b + g1 + g2) by { GatedStep(t1, b + g1, years, c, ModernisationGroup); }
    var t3 := GatedUpdate(t2, years, maritime, MaritimeGroup);
    assert t3 == FromEntries(b + g1 + g2 + g3) by { GatedStep(t2, b + g1 + g2, years, c, MaritimeGroup); }
    GatedStep(t3, b + g1 + g2 + g3, years, c, CyberGroup);
  }

  /** One conditional update extends the entries the table was built from
      by the group's entries when its tag is present. */
  lemma GatedStep(t: Table, added: seq<Entry>, years: seq<int>, c: Config, g: Group)
    requires |years| > 0
    requires t == FromEntries(added)
    ensures GatedUpdate(t, years, Tag(g) in c.priorities, g) == FromEntries(added + Gated(g, years, c))
  {
    if Tag(g) in c.priorities {
      UpdateConcat(EmptyTable, added, GroupEntries(g, years));
    } else {
      assert added + [] == added;
    }
  }

  /** Builds the table for a selection as the source does: a dict literal of
      the year and base columns, then one `update` per group whose tag is
      among the priorities. Returns the table and the resolved configuration. */
  method GenerateAdvancedData(selection: string) returns (table: Table, config: Config)
    ensures config == ResolveConfig(selection)
    ensures table == Dataset(selection)
  {
    var years := YearRange;
    config := ResolveConfig(selection);
    var budget := Simulators.SimulateBudget(years, config);
    var readiness := Simulators.SimulateReadiness(years);
    var deterrence := Simulators.SimulateDeterrence(years);
    var tests := Simulators.SimulateMissileTests(years);
    var base := [
      ("Annee", Ints(years)),
      ("Budget_Defense_Mds", Reals(budget)),
      ("Personnel_Milliers", Reals(Personnel(years, config))),
      ("PIB_Militaire_Pourcent", Reals(GdpShare(years))),
      ("Exercices_Militaires", Reals(Exercises(years, config))),
      ("Readiness_Operative", Reals(readiness)),
      ("Capacite_Dissuasion", Ints(deterrence)),
      ("Temps_Mobilisation_Jours", Ints(Mobilisation(years))),
      ("Tests_Missiles", Ints(tests)),
      ("Developpement_Technologique", Reals(RampSeries(years, Tech))),
      ("Capacite_Artillerie", Reals(RampSeries(years, Artillery))),
      ("Couverture_AD", Reals(RampSeries(years, AirDefence))),
      ("Resilience_Logistique", Ints(IntRampSeries(years, Logistics))),
      ("Cyber_Capabilities", Ints(IntRampSeries(years, CyberCapabilities))),
      ("Production_Armements", Reals(RampSeries(years, Production)))
    ];
    table := FromEntries(base);
    assert base == BaseEntries(years, config);
    ghost var t0 := table;

    var nuclear, modernisation, maritime, cyber :=
      Tag(NuclearGroup) in config.priorities, Tag(ModernisationGroup) in config.priorities,
      Tag(MaritimeGroup) in config.priorities, Tag(CyberGroup) in config.priorities;
    if nuclear {
      var stock := Simulators.SimulateNuclearArsenalSize(years);
      var ranges := Simulators.SimulateMissileRangeEvolution(years);
      var group := [
        ("Stock_Ogives_Nucleaires", Ints(stock)),
        ("Portee_Max_Missiles_Km", Ints(ranges)),
        ("Capacite_Sous_Marine", Ints(SubmarineSeries(years))),
        ("Essais_Souterrains", Ints(IntRampSeries(years, Underground)))
      ];
      assert group == GroupEntries(NuclearGroup, years);
      table := Update(table, group);
    }
    assert table == GatedUpdate(t0, years, nuclear, NuclearGroup);
    ghost var t1 := table;

    if modernisation {
      table := Update(table, GroupEntries(ModernisationGroup, years));
      assert table == GatedUpdate(t1, years, modernisation, ModernisationGroup);
    }
    ghost var t2 := table;

    if maritime {
      table := Update(table, GroupEntries(MaritimeGroup, years));
      assert table == GatedUpdate(t2, years, maritime, MaritimeGroup);
    }
    ghost var t3 := table;

    if cyber {
      table := Update(table, GroupEntries(CyberGroup, years));
      assert table == GatedUpdate(t3, years, cyber, CyberGroup);
    }
    GatedUpdates(years, config, nuclear, modernisation, maritime, cyber);
  }
}
