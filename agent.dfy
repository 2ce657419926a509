/** The course-generator page: it loads the collected tables (or a small
    built-in sample), narrows the course table by the chosen domain and
    level, hands the result to a language-model chain, and keeps every
    successful generation in a session list shown newest first. */
module Agent {
  import opened Util
  import opened Tables
  import Collection

  // ---------------------------------------------------------------------
  // Loading the collected data
  // ---------------------------------------------------------------------

  /** What opening one of the three data files yields: it does not exist,
      it exists but reading or decoding it raises, or it was read. */
  datatype FileState<T> = Missing | Unreadable | Readable(content: T)

  /** The course table, the module table and the exercise categories. */
  datatype LoadedData = LoadedData(formations: CourseTable, modules: seq<ModuleRow>, exercises: seq<ExerciseCategory>)

  /** The built-in sample used whenever the collected data cannot be used:
      two courses, one module for each, one exercise category. Its course
      rows have no `description`. */
  function SampleData(): (d: LoadedData)
    ensures |d.formations.rows| == 2 && |d.modules| == 2 && |d.exercises| == 1
    ensures d.formations.hasSource
    ensures Collection.TablesConsistent(Collection.Collected(d.formations.rows, d.modules))
  {
    LoadedData(
      CourseTable([
        CourseRow(1, "Python Basics", "Programming", "Beginner", HoursCount(8), "None", None, "Sample Data"),
        CourseRow(2, "Pandas Data Analysis", "Data Science", "Intermediate", HoursCount(6), "Python", None, "Sample Data")
      ], true),
      [
        ModuleRow(1, 1, 1, "Variables and Types", 60, "int, float, string, boolean", None, None, None),
        ModuleRow(2, 2, 1, "DataFrame Basics", 90, "read_csv, head, info, describe", None, None, None)
      ],
      [ExerciseCategory("Python Basics", "Beginner", [
        Exercise("Hello World", "Create a program that prints Hello World", None, None, None)])])
  }

  /** `load_real_data`: a missing course file, or any file that cannot be
      read, gives the whole sample; a missing module file gives an empty
      module table and a missing exercise file an empty list. The sample and
      the file contents are never mixed, and a file that was read is never
      replaced by the sample. */
  function LoadRealData(formations: FileState<CourseTable>, modules: FileState<seq<ModuleRow>>,
                        exercises: FileState<seq<ExerciseCategory>>): (d: LoadedData)
    ensures !formations.Readable? || modules.Unreadable? || exercises.Unreadable? ==> d == SampleData()
    ensures formations.Readable? && !modules.Unreadable? && !exercises.Unreadable? ==>
      d.formations == formations.content
      && (modules.Missing? ==> d.modules == [])
      && (modules.Readable? ==> d.modules == modules.content)
      && (exercises.Missing? ==> d.exercises == [])
      && (exercises.Readable? ==> d.exercises == exercises.content)
  {
    match formations
    case Missing => SampleData()
    case Unreadable => SampleData()
    case Readable(f) =>
      if modules.Unreadable? || exercises.Unreadable? then SampleData()
      else LoadedData(f, if modules.Readable? then modules.content else [],
                      if exercises.Readable? then exercises.content else [])
  }

  // ---------------------------------------------------------------------
  // Filtering the course table
  // ---------------------------------------------------------------------

  /** The columns of the course table the page reads values from. */
  datatype Column = Domaine | Niveau | Source

  function Cell(r: CourseRow, c: Column): string
  {
    match c
    case Domaine => r.domaine
    case Niveau => r.niveau
    case Source => r.source
  }

  /** `df[column].values`: the column, row by row. */
  function ColumnValues(rows: seq<CourseRow>, c: Column): (vs: seq<string>)
    ensures |vs| == |rows|
    ensures forall i :: 0 <= i < |rows| ==> vs[i] == Cell(rows[i], c)
  {
    seq(|rows|, i requires 0 <= i < |rows| => Cell(rows[i], c))
  }

  /** A value occurs in a column exactly when some row carries it. */
  lemma InColumn(rows: seq<CourseRow>, c: Column, v: string)
    ensures v in ColumnValues(rows, c) <==> exists r :: r in rows && Cell(r, c) == v
  {
    var vs := ColumnValues(rows, c);
    if v in vs {
      var i :| 0 <= i < |vs| && vs[i] == v;
      assert rows[i] in rows;
    }
  }

  /** A value found in a column of some rows is found in the column of any
      table holding those rows. */
  lemma ColumnSubset(a: seq<CourseRow>, b: seq<CourseRow>, c: Column, v: string)
    requires forall x :: x in a ==> x in b
    ensures v in ColumnValues(a, c) ==> v in ColumnValues(b, c)
  {
    InColumn(a, c, v);
    InColumn(b, c, v);
  }

  /** `df[df[column] == v]`: the rows carrying `v` in that column, in order. */
  function Select(rows: seq<CourseRow>, c: Column, v: string): (r: seq<CourseRow>)
    ensures IsSubsequence(r, rows)
    ensures forall x :: x in r <==> x in rows && Cell(x, c) == v
    ensures forall x :: multiset(r)[x] == if Cell(x, c) == v then multiset(rows)[x] else 0
  {
    if rows == [] then []
    else
      assert rows == [rows[0]] + rows[1..];
      if Cell(rows[0], c) == v then
        var r := [rows[0]] + Select(rows[1..], c, v);
        assert r[1..] == Select(rows[1..], c, v);
        r
      else Select(rows[1..], c, v)
  }

  /** Selecting a value every row already carries keeps the rows. */
  lemma {:induction false} SelectAll(rows: seq<CourseRow>, c: Column, v: string)
    requires forall x :: x in rows ==> Cell(x, c) == v
    ensures Select(rows, c, v) == rows
  {
    if rows != [] {
      assert rows[0] in rows;
      forall x | x in rows[1..] ensures Cell(x, c) == v {
        assert x in rows;
      }
      SelectAll(rows[1..], c, v);
    }
  }

  /** The domain step applies: a non-empty domain that occurs in the table. */
  predicate DomainStepApplies(t: CourseTable, domaine: string)
  {
    domaine != [] && domaine in ColumnValues(t.rows, Domaine)
  }

  /** The level step applies: a non-empty level that occurs in the table
      given to the page, not in the domain-filtered one. */
  predicate LevelStepApplies(t: CourseTable, niveau: string)
  {
    niveau != [] && niveau in ColumnValues(t.rows, Niveau)
  }

  /** The course rows passed to the chain. */
  function Filtered(t: CourseTable, domaine: string, niveau: string): (f: CourseTable)
    ensures IsSubsequence(f.rows, t.rows)
    ensures f.hasSource == t.hasSource
  {
    var afterDomain := if DomainStepApplies(t, domaine) then Select(t.rows, Domaine, domaine) else t.rows;
    SubsequenceReflexive(t.rows);
    if LevelStepApplies(t, niveau) then
      var rows := Select(afterDomain, Niveau, niveau);
      SubsequenceTransitive(rows, afterDomain, t.rows);
      CourseTable(rows, t.hasSource)
    else CourseTable(afterDomain, t.hasSource)
  }

  /** The two reassignments of `filtered_formations`. */
  method FilterFormations(formations: CourseTable, domaine: string, niveau: string) returns (filtered: CourseTable)
    ensures filtered == Filtered(formations, domaine, niveau)
  {
    filtered := formations;
    if domaine != [] && domaine in ColumnValues(formations.rows, Domaine) {
      filtered := CourseTable(Select(formations.rows, Domaine, domaine), formations.hasSource);
    }
    if niveau != [] && niveau in ColumnValues(formations.rows, Niveau) {
      filtered := CourseTable(Select(filtered.rows, Niveau, niveau), filtered.hasSource);
    }
  }

  /** A row is passed on exactly when it is in the table and carries the
      domain and the level of each step that applies. */
  lemma FilteredMembership(t: CourseTable, domaine: string, niveau: string, x: CourseRow)
    ensures x in Filtered(t, domaine, niveau).rows <==>
      x in t.rows
      && (DomainStepApplies(t, domaine) ==> x.domaine == domaine)
      && (LevelStepApplies(t, niveau) ==> x.niveau == niveau)
  {
  }

  /** A domain and a level that are both unknown (or empty) leave the table
      as it is. */
  lemma FilterPassesThrough(t: CourseTable, domaine: string, niveau: string)
    requires !DomainStepApplies(t, domaine) && !LevelStepApplies(t, niveau)
    ensures Filtered(t, domaine, niveau) == t
  {
  }

  /** A level that occurs in the table, but on no row of the chosen domain,
      leaves nothing: the level is looked up in the whole table and then
      applied to the domain's rows. */
  lemma LevelOutsideDomainEmpties(t: CourseTable, domaine: string, niveau: string)
    requires DomainStepApplies(t, domaine) && LevelStepApplies(t, niveau)
    requires forall x :: x in t.rows && x.domaine == domaine ==> x.niveau != niveau
    ensures Filtered(t, domaine, niveau).rows == []
  {
    var r := Filtered(t, domaine, niveau).rows;
    if r != [] {
      FilteredMembership(t, domaine, niveau, r[0]);
      assert false;
    }
  }

  /** Filtering the filtered table again with the same choice changes
      nothing. */
  lemma FilterIdempotent(t: CourseTable, domaine: string, niveau: string)
    ensures Filtered(Filtered(t, domaine, niveau), domaine, niveau) == Filtered(t, domaine, niveau)
  {
    var f := Filtered(t, domaine, niveau);
    var afterDomain := if DomainStepApplies(f, domaine) then Select(f.rows, Domaine, domaine) else f.rows;
    forall x | x in f.rows ensures x in t.rows {
      FilteredMembership(t, domaine, niveau, x);
    }
    ColumnSubset(f.rows, t.rows, Domaine, domaine);
    ColumnSubset(f.rows, t.rows, Niveau, niveau);
    forall x | x in f.rows
      ensures (DomainStepApplies(f, domaine) ==> x.domaine == domaine)
      ensures (LevelStepApplies(f, niveau) ==> x.niveau == niveau)
    {
      FilteredMembership(t, domaine, niveau, x);
    }
    if DomainStepApplies(f, domaine) {
      SelectAll(f.rows, Domaine, domaine);
    }
    if LevelStepApplies(f, niveau) {
      SelectAll(afterDomain, Niveau, niveau);
    }
  }

  /** The choices offered for a column: its distinct values in order of
      first occurrence, or a single default when the table is empty. */
  function Options(t: CourseTable, c: Column, default: string): (opts: seq<string>)
    ensures NoDuplicates(opts)
    ensures t.rows == [] ==> opts == [default]
    ensures t.rows != [] ==> forall v :: v in opts <==> v in ColumnValues(t.rows, c)
  {
    if t.rows == [] then [default] else Unique(ColumnValues(t.rows, c))
  }

  /** `domaines_disponibles`. */
  function DomainOptions(t: CourseTable): (opts: seq<string>)
    ensures NoDuplicates(opts)
    ensures t.rows == [] ==> opts == ["Programming"]
    ensures t.rows != [] ==> forall v :: v in opts <==> v in ColumnValues(t.rows, Domaine)
  {
    Options(t, Domaine, "Programming")
  }

  /** `niveaux_disponibles`. */
  function LevelOptions(t: CourseTable): (opts: seq<string>)
    ensures NoDuplicates(opts)
    ensures t.rows == [] ==> opts == ["Beginner"]
    ensures t.rows != [] ==> forall v :: v in opts <==> v in ColumnValues(t.rows, Niveau)
  {
    Options(t, Niveau, "Beginner")
  }

  /** A domain and a level picked from the offered choices of a non-empty
      table always apply, so the chain gets exactly the rows carrying both. */
  lemma OfferedChoicesApply(t: CourseTable, i: nat, j: nat, x: CourseRow)
    requires t.rows != [] && i < |DomainOptions(t)| && j < |LevelOptions(t)|
    requires DomainOptions(t)[i] != [] && LevelOptions(t)[j] != []
    ensures DomainStepApplies(t, DomainOptions(t)[i]) && LevelStepApplies(t, LevelOptions(t)[j])
    ensures x in Filtered(t, DomainOptions(t)[i], LevelOptions(t)[j]).rows <==>
      x in t.rows && x.domaine == DomainOptions(t)[i] && x.niveau == LevelOptions(t)[j]
  {
    assert DomainOptions(t)[i] in DomainOptions(t);
    assert LevelOptions(t)[j] in LevelOptions(t);
    FilteredMembership(t, DomainOptions(t)[i], LevelOptions(t)[j], x);
  }

  // ---------------------------------------------------------------------
  // Generation
  // ---------------------------------------------------------------------

  /** The settings and the request typed on the page. */
  datatype GenerationRequest = GenerationRequest(
    generationType: string,
    domaine: string,
    niveau: string,
    duree: int,
    formatSortie: string,
    userInput: string)

  /** Renderings the page delegates to libraries: `DataFrame.to_string` for
      the two tables and `json.dumps` for the exercises. */
  datatype Renderers = Renderers(
    courses: CourseTable -> string,
    modules: seq<ModuleRow> -> string,
    exercises: seq<ExerciseCategory> -> string)

  /** The variables handed to the chain. */
  datatype ChainInput = ChainInput(
    formationsData: string,
    modulesData: string,
    exercisesData: string,
    generationType: string,
    domaine: string,
    niveau: string,
    duree: int,
    formatSortie: string,
    userInput: string)

  /** The chain input for a request: the filtered course rows, rendered even
      when none are left, and the whole module and exercise data, or a
      placeholder when there is none. */
  function ChainInputFor(req: GenerationRequest, data: LoadedData, filtered: CourseTable, render: Renderers): ChainInput
  {
    ChainInput(
      render.courses(filtered),
      if data.modules == [] then "Aucun module chargé" else render.modules(data.modules),
      if data.exercises == [] then "Aucun exercice chargé" else render.exercises(data.exercises),
      req.generationType, req.domaine, req.niveau, req.duree, req.formatSortie, req.userInput)
  }

  /** `sources_utilisees`: the distinct sources of the filtered rows in order
      of first occurrence; none when no row is left or the table has no
      `source` column. */
  function SourcesUsed(filtered: CourseTable): (r: seq<string>)
    ensures NoDuplicates(r)
    ensures forall s :: s in r <==> filtered.hasSource && s in ColumnValues(filtered.rows, Source)
  {
    if filtered.rows != [] && filtered.hasSource then Unique(ColumnValues(filtered.rows, Source)) else []
  }

  /** Sources are listed in the order in which they first appear in the rows. */
  lemma SourcesInRowOrder(filtered: CourseTable, i: nat, j: nat)
    requires i < j < |SourcesUsed(filtered)|
    ensures FirstIndex(ColumnValues(filtered.rows, Source), SourcesUsed(filtered)[i])
          < FirstIndex(ColumnValues(filtered.rows, Source), SourcesUsed(filtered)[j])
  {
    UniqueFirstOccurrenceOrder(ColumnValues(filtered.rows, Source), i, j);
  }

  /** One entry of `generated_courses`. */
  datatype GenerationRecord = GenerationRecord(
    timestamp: string,
    generationType: string,
    domaine: string,
    niveau: string,
    duree: int,
    demande: string,
    contenu: string,
    sourcesUtilisees: seq<string>,
    nbFormationsSource: nat)

  /** The record of a successful generation: the request's settings, the
      generated text, each source of the filtered rows once, and the number
      of filtered rows, which is never below the number of sources. */
  function MakeRecord(req: GenerationRequest, filtered: CourseTable, text: string, timestamp: string): (r: GenerationRecord)
    ensures r.timestamp == timestamp && r.contenu == text && r.demande == req.userInput
    ensures r.generationType == req.generationType && r.domaine == req.domaine
    ensures r.niveau == req.niveau && r.duree == req.duree
    ensures NoDuplicates(r.sourcesUtilisees)
    ensures forall s :: s in r.sourcesUtilisees <==> filtered.hasSource && s in ColumnValues(filtered.rows, Source)
    ensures r.nbFormationsSource == |filtered.rows| && |r.sourcesUtilisees| <= r.nbFormationsSource
  {
    SourcesBound(filtered);
    GenerationRecord(timestamp, req.generationType, req.domaine, req.niveau, req.duree, req.userInput,
                     text, SourcesUsed(filtered), |filtered.rows|)
  }

  /** What a click on the generate button shows. */
  datatype GenerationOutcome = MissingRequest | GenerationFailed | Generated(text: string, record: GenerationRecord)

  /** The session state of the generator page: the generations kept so far. */
  class GenerationSession {
    var generatedCourses: seq<GenerationRecord>

    /** Every kept record lists each source once and counts at least as many
        courses as it lists sources. */
    predicate Valid()
      reads this
    {
      forall i :: 0 <= i < |generatedCourses| ==>
        NoDuplicates(generatedCourses[i].sourcesUtilisees)
        && |generatedCourses[i].sourcesUtilisees| <= generatedCourses[i].nbFormationsSource
    }

    constructor()
      ensures generatedCourses == [] && Valid()
    {
      generatedCourses := [];
    }

    /** One click on the generate button. An empty request only warns; a
        chain that raises shows an error and keeps nothing; a chain that
        answers adds exactly one record, built from the filtered rows. */
    method Generate(req: GenerationRequest, data: LoadedData, render: Renderers,
                    chain: ChainInput -> Option<string>, timestamp: string) returns (outcome: GenerationOutcome)
      requires Valid()
      modifies this
      ensures Valid()
      ensures req.userInput == [] ==> outcome == MissingRequest && generatedCourses == old(generatedCourses)
      ensures req.userInput != [] ==>
        var filtered := Filtered(data.formations, req.domaine, req.niveau);
        var answer := chain(ChainInputFor(req, data, filtered, render));
        (answer.None? ==> outcome == GenerationFailed && generatedCourses == old(generatedCourses))
        && (answer.Some? ==>
              outcome == Generated(answer.value, MakeRecord(req, filtered, answer.value, timestamp))
              && generatedCourses == old(generatedCourses) + [outcome.record])
    {
      if req.userInput == [] {
        return MissingRequest;
      }
      var filtered := FilterFormations(data.formations, req.domaine, req.niveau);
      var answer := chain(ChainInputFor(req, data, filtered, render));
      if answer.None? {
        return GenerationFailed;
      }
      var record := MakeRecord(req, filtered, answer.value, timestamp);
      generatedCourses := generatedCourses + [record];
      outcome := Generated(answer.value, record);
    }
  }

  /** There are never more distinct sources than filtered rows. */
  lemma SourcesBound(filtered: CourseTable)
    ensures |SourcesUsed(filtered)| <= |filtered.rows|
  {
  }

  // ---------------------------------------------------------------------
  // The history panel
  // ---------------------------------------------------------------------

  function Reversed<T>(s: seq<T>): (r: seq<T>)
    ensures |r| == |s|
    ensures forall i :: 0 <= i < |s| ==> r[i] == s[|s| - 1 - i]
  {
    if s == [] then [] else Reversed(s[1..]) + [s[0]]
  }

  /** `reversed(generated_courses[-5:])`: the last five records (all of
      them when there are fewer), most recent first. */
  function HistoryView<T>(courses: seq<T>): (v: seq<T>)
    ensures |v| == Min(5, |courses|)
    ensures forall i :: 0 <= i < |v| ==> v[i] == courses[|courses| - 1 - i]
  {
    Reversed(courses[|courses| - Min(5, |courses|)..])
  }

  /** After a new record is kept, it heads the panel and the four most
      recent older records follow. */
  lemma HistoryViewAfterAppend<T>(courses: seq<T>, r: T)
    ensures HistoryView(courses + [r]) == [r] + HistoryView(courses)[..Min(4, |courses|)]
  {
    var v, w := HistoryView(courses + [r]), [r] + HistoryView(courses)[..Min(4, |courses|)];
    assert |v| == |w|;
    forall i | 0 <= i < |v| ensures v[i] == w[i] {
      if i > 0 {
        assert w[i] == HistoryView(courses)[i - 1];
      }
    }
  }

  /** The preview of a generated text: the text itself up to 500
      characters, otherwise its first 500 characters and "...". */
  function Preview(content: string): (p: string)
    ensures |content| <= 500 ==> p == content
    ensures |content| > 500 ==> |p| == 503 && p[..500] == content[..500] && p[500..] == "..."
  {
    if |content| > 500 then content[..500] + "..." else content
  }
}
