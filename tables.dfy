/** The rows of the three collections the collection script writes and the
    generator page reads back: the course table ("formations"), the module
    table ("modules") and the exercise catalog. Column names follow the CSV
    headers of the original program. */
module Tables {
  import opened Util

  /** `duree_heures` holds text for Kaggle courses ("7.5", the catalog's
      "7.5h" with the `h` removed) and an integer for the documentation
      courses and the built-in sample rows. */
  datatype Hours = HoursText(text: string) | HoursCount(count: nat)

  /** One row of the course table. `description` is absent from the built-in
      sample rows. */
  datatype CourseRow = CourseRow(
    formationId: int,
    titre: string,
    domaine: string,
    niveau: string,
    dureeHeures: Hours,
    prerequis: string,
    description: Option<string>,
    source: string)

  /** The course table: its rows in order, and whether it has a `source`
      column (a table read from an arbitrary CSV file may lack one; when it
      does, the rows' `source` values carry no meaning). */
  datatype CourseTable = CourseTable(rows: seq<CourseRow>, hasSource: bool)

  /** One row of the module table. `exemple` and `niveau` exist only for the
      documentation modules; the sample rows have no `source`. */
  datatype ModuleRow = ModuleRow(
    moduleId: int,
    formationId: int,
    ordre: int,
    titre: string,
    dureeMinutes: int,
    conceptsCles: string,
    exemple: Option<string>,
    niveau: Option<string>,
    source: Option<string>)

  datatype Exercise = Exercise(
    title: string,
    description: string,
    starterCode: Option<string>,
    solution: Option<string>,
    testCases: Option<seq<string>>)

  datatype ExerciseCategory = ExerciseCategory(category: string, level: string, exercises: seq<Exercise>)
}
