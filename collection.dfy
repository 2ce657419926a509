/** The collection script's `collect_all_real_data`: it walks the Kaggle
    courses (each with its lessons) and the documentation modules (each with
    its functions) and builds two flat tables. Every course gets the next
    `formation_id`; every lesson or function becomes a module row with the
    next `module_id`, the id of the course appended just before it, and its
    rank `ordre` inside that course. Ids are read off the lengths of the
    growing lists, exactly as the script does. */
module Collection {
  import opened Util
  import opened Tables
  import opened Catalogs

  // ---------------------------------------------------------------------
  // Durations: int(float(d.replace('h', '')) * 60), with exact decimals
  // ---------------------------------------------------------------------

  predicate IsDigit(c: char) { '0' <= c <= '9' }

  predicate AllDigits(s: string)
    decreases |s|
  {
    s == [] || (AllDigits(s[..|s| - 1]) && IsDigit(s[|s| - 1]))
  }

  /** A string of digits holds no other character. */
  lemma {:induction false} DigitsExclude(s: string, c: char)
    requires AllDigits(s) && !IsDigit(c)
    ensures c !in s
    decreases |s|
  {
    if s != [] {
      DigitsExclude(s[..|s| - 1], c);
      assert s == s[..|s| - 1] + [s[|s| - 1]];
    }
  }

  /** The number written by a string of decimal digits. */
  function DigitsValue(s: string): nat
    requires AllDigits(s)
    decreases |s|
  {
    if s == [] then 0 else DigitsValue(s[..|s| - 1]) * 10 + (s[|s| - 1] as int - '0' as int)
  }

  /** x / 10^k, truncated: k successive truncating divisions by ten. */
  function DivPow10(x: nat, k: nat): nat
  {
    if k == 0 then x else DivPow10(x / 10, k - 1)
  }

  /** Python's `float(s)` on an unsigned decimal `ddd`, `ddd.ddd`, `ddd.` or
      `.ddd`: `Some((n, k))` stands for the exact value n / 10^k; `None` is
      the ValueError that `float` raises on anything else. */
  function ParseDecimal(s: string): Option<(nat, nat)>
  {
    match SplitAtPoint(s)
    case None => if s != [] && AllDigits(s) then Some((DigitsValue(s), 0)) else None
    case Some((whole, frac)) => ParseFraction(whole, frac)
  }

  /** The text before and after the first '.', or `None` when there is none. */
  function SplitAtPoint(s: string): (r: Option<(string, string)>)
    ensures r.Some? ==> s == r.value.0 + "." + r.value.1 && '.' !in r.value.0
    ensures r.None? ==> '.' !in s
  {
    if s == [] then None
    else if s[0] == '.' then Some(([], s[1..]))
    else match SplitAtPoint(s[1..])
      case None => None
      case Some((whole, frac)) => Some(([s[0]] + whole, frac))
  }

  /** The digits before and after the point: at least one digit in all, and
      nothing else. */
  function ParseFraction(whole: string, frac: string): Option<(nat, nat)>
  {
    if AllDigits(whole) && AllDigits(frac) && |whole| + |frac| > 0
    then DigitsAppend(whole, frac); Some((DigitsValue(whole + frac), |frac|))
    else None
  }

  /** Two strings of digits make one. */
  lemma {:induction false} DigitsAppend(a: string, b: string)
    requires AllDigits(a) && AllDigits(b)
    ensures AllDigits(a + b)
    decreases |b|
  {
    if b != [] {
      var init := b[..|b| - 1];
      DigitsAppend(a, init);
      assert (a + b)[..|a + b| - 1] == a + init;
      assert (a + b)[|a + b| - 1] == b[|b| - 1];
    } else {
      assert a + b == a;
    }
  }

  /** One more digit multiplies the value by ten and adds the digit. */
  lemma DigitsValueSnoc(s: string, c: char)
    requires AllDigits(s) && IsDigit(c)
    ensures AllDigits(s + [c])
    ensures DigitsValue(s + [c]) == DigitsValue(s) * 10 + (c as int - '0' as int)
  {
    assert (s + [c])[..|s|] == s;
  }

  /** A lesson's `duree_minutes`: every `h` removed, read as a decimal number
      of hours, times 60, truncated. `None` when `float` would raise. */
  function DurationMinutes(d: string): Option<nat>
  {
    HoursToMinutes(ParseDecimal(RemoveAll(d, 'h')))
  }

  /** `int(hours * 60)` for the exact decimal n / 10^k. */
  function HoursToMinutes(hours: Option<(nat, nat)>): Option<nat>
  {
    match hours
    case None => None
    case Some((n, k)) => Some(DivPow10(n * 60, k))
  }

  /** n tenths of an hour last 6 n minutes. */
  lemma TenthsToMinutes(n: nat)
    ensures HoursToMinutes(Some((n, 1))) == Some(6 * n)
  {
    assert DivPow10(n * 60, 1) == (n * 60) / 10;
  }

  lemma RemoveTrailingH(s: string, tail: string)
    requires 'h' !in s && tail == "h"
    ensures RemoveAll(s + tail, 'h') == s
  {
    RemoveAllAppend(s, tail, 'h');
    RemoveAllAbsent(s, 'h');
    assert RemoveAll(tail, 'h') == [];
  }

  /** A whole number of hours "Nh" gives N * 60 minutes. */
  lemma WholeHoursMinutes(s: string)
    requires s != [] && AllDigits(s)
    ensures DurationMinutes(s + "h") == Some(60 * DigitsValue(s))
  {
    DigitsExclude(s, 'h');
    RemoveTrailingH(s, "h");
    DigitsExclude(s, '.');
  }

  /** Text without a point, then a point, splits there. */
  lemma {:induction false} SplitAfter(s: string, t: string)
    requires '.' !in s
    ensures SplitAtPoint(s + "." + t) == Some((s, t))
  {
    if s != [] {
      SplitAfter(s[1..], t);
      assert (s + "." + t)[1..] == s[1..] + "." + t;
      assert [s[0]] + s[1..] == s;
    }
  }

  /** "N.5" reads as 10 N + 5 tenths. */
  lemma ParseHalf(s: string)
    requires AllDigits(s)
    ensures ParseDecimal(s + ".5") == Some((DigitsValue(s) * 10 + 5, 1))
  {
    assert ParseDecimal(s + ".5") == ParseFraction(s, ['5']) by {
      DigitsExclude(s, '.');
      SplitAfter(s, ['5']);
      assert s + "." + ['5'] == s + ".5";
    }
    HalfFraction(s);
  }

  /** The digits N before a point and the single digit 5 after it. */
  lemma HalfFraction(s: string)
    requires AllDigits(s)
    ensures ParseFraction(s, ['5']) == Some((DigitsValue(s) * 10 + 5, 1))
  {
    assert AllDigits(['5']) by {
      assert ['5'][..0] == [];
    }
    DigitsValueSnoc(s, '5');
    var v := DigitsValue(s + ['5']);
    assert v == DigitsValue(s) * 10 + 5;
    assert ParseFraction(s, ['5']) == Some((v, 1));
  }

  /** A duration whose `h`-free text reads as n tenths of an hour lasts
      6 n minutes. */
  lemma TenthsDuration(d: string, t: string, n: nat)
    requires RemoveAll(d, 'h') == t && ParseDecimal(t) == Some((n, 1))
    ensures DurationMinutes(d) == Some(6 * n)
  {
    TenthsToMinutes(n);
  }

  /** A duration "N.5h" with N a string of digits of value v gives
      v * 60 + 30 minutes; with no digits at all, ".5h" is half an hour. */
  lemma HalfHoursMinutes(s: string, v: nat)
    requires AllDigits(s) && v == DigitsValue(s)
    ensures DurationMinutes(s + ".5h") == Some(60 * v + 30)
  {
    HalfHoursText(s);
    ParseHalf(s);
    HalfDuration(s, v);
  }

  lemma HalfDuration(s: string, v: nat)
    requires RemoveAll(s + ".5h", 'h') == s + ".5" && ParseDecimal(s + ".5") == Some((v * 10 + 5, 1))
    ensures DurationMinutes(s + ".5h") == Some(60 * v + 30)
  {
    TenthsDuration(s + ".5h", s + ".5", v * 10 + 5);
  }

  lemma HalfHoursText(s: string)
    requires AllDigits(s)
    ensures RemoveAll(s + ".5h", 'h') == s + ".5"
  {
    DigitsExclude(s, 'h');
    assert s + ".5h" == (s + ".5") + "h";
    RemoveTrailingH(s + ".5", "h");
  }

  // ---------------------------------------------------------------------
  // The rows the script appends
  // ---------------------------------------------------------------------

  /** The course row appended for a Kaggle course. */
  function KaggleCourseRow(c: KaggleCourse, id: int): CourseRow
  {
    CourseRow(id, c.title, "Data Science", c.level, HoursText(RemoveAll(c.totalDuration, 'h')),
              c.prerequisites, Some(c.description), "Kaggle Learn")
  }

  /** The course row appended for a documentation module. */
  function DocCourseRow(m: DocModule, id: int): CourseRow
  {
    CourseRow(id, "Python " + m.moduleName, "Programming", "Beginner", HoursCount(4),
              "None", Some("Learn " + m.moduleName + " in Python"), "Python Documentation")
  }

  predicate LessonParses(l: Lesson) { DurationMinutes(l.duration).Some? }

  /** The module row appended for a Kaggle lesson. */
  function LessonModuleRow(l: Lesson, ordre: int, courseId: int, moduleId: int): ModuleRow
    requires LessonParses(l)
  {
    ModuleRow(moduleId, courseId, ordre, l.lesson, DurationMinutes(l.duration).value,
              l.concepts, None, None, Some("Kaggle Learn"))
  }

  /** The module row appended for a documented function; always 30 minutes. */
  function FunctionModuleRow(f: DocFunction, ordre: int, courseId: int, moduleId: int): ModuleRow
  {
    ModuleRow(moduleId, courseId, ordre, f.name, 30, f.description,
              Some(f.example), Some(f.level), Some("Python Documentation"))
  }

  // ---------------------------------------------------------------------
  // `ordre` of a documented function:
  // len([f for f in fs if fs.index(f) <= fs.index(func)])
  // ---------------------------------------------------------------------

  /** How many of the first `n` entries of `fs` first occur at or before position `b`. */
  function CountFirstAtOrBefore<T(==)>(fs: seq<T>, n: nat, b: int): (c: nat)
    requires n <= |fs|
    ensures c <= n
  {
    if n == 0 then 0
    else CountFirstAtOrBefore(fs, n - 1, b) + (if FirstIndex(fs, fs[n - 1]) <= b then 1 else 0)
  }

  lemma {:induction false} CountFirstAtLeast<T>(fs: seq<T>, n: nat, b: int)
    requires n <= |fs| && b >= -1
    ensures CountFirstAtOrBefore(fs, n, b) >= Min(n, b + 1)
  {
    if n > 0 {
      CountFirstAtLeast(fs, n - 1, b);
    }
  }

  /** The `ordre` the script gives to entry `f` of the list `fs`. It is at
      least one more than the first position of `f`, and never more than
      the length of the list. */
  function Ordre<T(==)>(fs: seq<T>, f: T): (o: nat)
    requires f in fs
    ensures FirstIndex(fs, f) < o <= |fs|
  {
    CountFirstAtLeast(fs, |fs|, FirstIndex(fs, f));
    CountFirstAtOrBefore(fs, |fs|, FirstIndex(fs, f))
  }

  lemma {:induction false} CountFirstOfDistinct<T>(fs: seq<T>, n: nat, b: int)
    requires NoDuplicates(fs) && n <= |fs| && b >= -1
    ensures CountFirstAtOrBefore(fs, n, b) == Min(n, b + 1)
  {
    if n > 0 {
      CountFirstOfDistinct(fs, n - 1, b);
      FirstIndexOfDistinct(fs, n - 1);
    }
  }

  /** With pairwise distinct entries the rank is the position plus one. */
  lemma OrdreOfDistinct<T>(fs: seq<T>, j: nat)
    requires NoDuplicates(fs) && j < |fs|
    ensures Ordre(fs, fs[j]) == j + 1
  {
    FirstIndexOfDistinct(fs, j);
    CountFirstOfDistinct(fs, |fs|, j);
  }

  /** With a repeated entry the ranks are no longer 1, 2, ...: both copies of
      `f` in `[f, f]` get `ordre` 2, and no entry gets 1. */
  lemma OrdreOfRepeatedEntry<T>(f: T)
    ensures Ordre([f, f], f) == 2
  {
    var fs := [f, f];
    assert FirstIndex(fs, fs[1]) == 0;
    assert CountFirstAtOrBefore(fs, 1, 0) == 1;
  }

  // ---------------------------------------------------------------------
  // Specification of the two flat tables
  // ---------------------------------------------------------------------

  /** Number of lessons in the first `n` courses. */
  function LessonTotal(ks: seq<KaggleCourse>, n: nat): nat
    requires n <= |ks|
  {
    if n == 0 then 0 else LessonTotal(ks, n - 1) + |ks[n - 1].lessons|
  }

  /** Number of documented functions in the first `n` modules. */
  function FunctionTotal(ds: seq<DocModule>, n: nat): nat
    requires n <= |ds|
  {
    if n == 0 then 0 else FunctionTotal(ds, n - 1) + |ds[n - 1].functions|
  }

  /** Every lesson duration of the first `n` courses can be read by `float`. */
  predicate LessonsParseBefore(ks: seq<KaggleCourse>, n: nat)
    requires n <= |ks|
  {
    n == 0 || (LessonsParseBefore(ks, n - 1) && LessonsParse(ks[n - 1].lessons, |ks[n - 1].lessons|))
  }

  /** Every one of the first `n` lessons of a course has a readable duration. */
  predicate LessonsParse(ls: seq<Lesson>, n: nat)
    requires n <= |ls|
  {
    n == 0 || (LessonsParse(ls, n - 1) && LessonParses(ls[n - 1]))
  }

  lemma {:induction false} LessonsParseAt(ls: seq<Lesson>, n: nat, i: nat)
    requires n <= |ls| && LessonsParse(ls, n) && i < n
    ensures LessonParses(ls[i])
  {
    if i < n - 1 {
      LessonsParseAt(ls, n - 1, i);
    }
  }

  lemma {:induction false} LessonsParseFromAll(ls: seq<Lesson>, n: nat)
    requires n <= |ls| && forall i :: 0 <= i < n ==> LessonParses(ls[i])
    ensures LessonsParse(ls, n)
  {
    if n > 0 {
      LessonsParseFromAll(ls, n - 1);
    }
  }

  /** `LessonsParseBefore` holds exactly when every lesson of the first `n`
      courses has a readable duration. */
  lemma {:induction false} LessonsParseBeforeIff(ks: seq<KaggleCourse>, n: nat)
    requires n <= |ks|
    ensures LessonsParseBefore(ks, n) <==>
      forall c, i :: 0 <= c < n && 0 <= i < |ks[c].lessons| ==> LessonParses(ks[c].lessons[i])
  {
    if n > 0 {
      LessonsParseBeforeIff(ks, n - 1);
      LessonsParseIff(ks[n - 1].lessons);
    }
  }

  /** `LessonsParse` over a whole course holds exactly when each of its
      lessons has a readable duration. */
  lemma LessonsParseIff(ls: seq<Lesson>)
    ensures LessonsParse(ls, |ls|) <==> forall i :: 0 <= i < |ls| ==> LessonParses(ls[i])
  {
    if LessonsParse(ls, |ls|) {
      forall i | 0 <= i < |ls| ensures LessonParses(ls[i]) {
        LessonsParseAt(ls, |ls|, i);
      }
    }
    if forall i :: 0 <= i < |ls| ==> LessonParses(ls[i]) {
      LessonsParseFromAll(ls, |ls|);
    }
  }

  /** Every lesson duration can be read, so the script runs to the end. */
  predicate AllLessonsParse(ks: seq<KaggleCourse>)
  {
    LessonsParseBefore(ks, |ks|)
  }

  /** Course `c` of the first `n` has readable lesson durations. */
  lemma {:induction false} LessonsParseBeforeCourse(ks: seq<KaggleCourse>, n: nat, c: nat)
    requires c < n <= |ks| && LessonsParseBefore(ks, n)
    ensures LessonsParse(ks[c].lessons, |ks[c].lessons|)
  {
    if c < n - 1 {
      LessonsParseBeforeCourse(ks, n - 1, c);
    }
  }

  /** The two tables while they are being built. */
  datatype Collected = Collected(courses: seq<CourseRow>, modules: seq<ModuleRow>)

  /** `modules` after the first `n` lessons of a course were appended: lesson
      i gets `ordre` i + 1 and the next free `module_id`, read off the
      length of the list. */
  function AppendedLessons(modules: seq<ModuleRow>, ls: seq<Lesson>, n: nat, courseId: int): (rows: seq<ModuleRow>)
    requires n <= |ls| && LessonsParse(ls, n)
    ensures |rows| == |modules| + n
  {
    if n == 0 then modules
    else
      var prev := AppendedLessons(modules, ls, n - 1, courseId);
      prev + [LessonModuleRow(ls[n - 1], n, courseId, |prev| + 1)]
  }

  /** `modules` after the first `n` functions of a documentation module were
      appended. */
  function AppendedFunctions(modules: seq<ModuleRow>, fs: seq<DocFunction>, n: nat, courseId: int): (rows: seq<ModuleRow>)
    requires n <= |fs|
    ensures |rows| == |modules| + n
  {
    if n == 0 then modules
    else
      var prev := AppendedFunctions(modules, fs, n - 1, courseId);
      prev + [FunctionModuleRow(fs[n - 1], Ordre(fs, fs[n - 1]), courseId, |prev| + 1)]
  }

  /** The tables after the first `n` Kaggle courses: each course row gets
      the next `formation_id`, and its lessons point to it. */
  function AfterKaggle(ks: seq<KaggleCourse>, n: nat): (t: Collected)
    requires n <= |ks| && LessonsParseBefore(ks, n)
    ensures |t.courses| == n && |t.modules| == LessonTotal(ks, n)
  {
    if n == 0 then Collected([], [])
    else
      var t := AfterKaggle(ks, n - 1);
      var courses := t.courses + [KaggleCourseRow(ks[n - 1], |t.courses| + 1)];
      var ls := ks[n - 1].lessons;
      Collected(courses, AppendedLessons(t.modules, ls, |ls|, |courses|))
  }

  /** The tables after the first `n` documentation modules were appended to
      `start`. */
  function AfterDocs(start: Collected, ds: seq<DocModule>, n: nat): (t: Collected)
    requires n <= |ds|
    ensures |t.courses| == |start.courses| + n && |t.modules| == |start.modules| + FunctionTotal(ds, n)
  {
    if n == 0 then start
    else
      var t := AfterDocs(start, ds, n - 1);
      var courses := t.courses + [DocCourseRow(ds[n - 1], |t.courses| + 1)];
      var fs := ds[n - 1].functions;
      Collected(courses, AppendedFunctions(t.modules, fs, |fs|, |courses|))
  }

  /** The two tables `collect_all_real_data` writes: the Kaggle courses
      first, then the documentation modules. */
  function CollectedTables(ks: seq<KaggleCourse>, ds: seq<DocModule>): Collected
    requires AllLessonsParse(ks)
  {
    AfterDocs(AfterKaggle(ks, |ks|), ds, |ds|)
  }

  // ---------------------------------------------------------------------
  // Properties of the two tables
  // ---------------------------------------------------------------------

  /** `formation_id`s are 1, 2, ... in row order. */
  predicate CourseIdsSequential(courses: seq<CourseRow>)
  {
    forall i :: 0 <= i < |courses| ==> courses[i].formationId == i + 1
  }

  /** `module_id`s are 1, 2, ... in row order. */
  predicate ModuleIdsSequential(modules: seq<ModuleRow>)
  {
    forall j :: 0 <= j < |modules| ==> modules[j].moduleId == j + 1
  }

  /** Every module's `formation_id` is the id of a row of the course table. */
  predicate ForeignKeysValid(courses: seq<CourseRow>, modules: seq<ModuleRow>)
  {
    forall j :: 0 <= j < |modules| ==> 1 <= modules[j].formationId <= |courses|
  }

  predicate TablesConsistent(t: Collected)
  {
    CourseIdsSequential(t.courses) && ModuleIdsSequential(t.modules) && ForeignKeysValid(t.courses, t.modules)
  }

  /** Appending lessons leaves the rows already there untouched. */
  lemma {:induction false} AppendedLessonsPrefix(modules: seq<ModuleRow>, ls: seq<Lesson>, n: nat, courseId: int, j: nat)
    requires n <= |ls| && LessonsParse(ls, n) && j < |modules|
    ensures AppendedLessons(modules, ls, n, courseId)[j] == modules[j]
  {
    if n > 0 {
      AppendedLessonsPrefix(modules, ls, n - 1, courseId, j);
    }
  }

  /** Lesson i becomes the row after the i rows appended before it, with
      `ordre` i + 1. */
  lemma {:induction false} AppendedLessonsAt(modules: seq<ModuleRow>, ls: seq<Lesson>, n: nat, courseId: int, i: nat)
    requires n <= |ls| && LessonsParse(ls, n) && i < n
    ensures LessonParses(ls[i])
    ensures AppendedLessons(modules, ls, n, courseId)[|modules| + i]
         == LessonModuleRow(ls[i], i + 1, courseId, |modules| + i + 1)
  {
    LessonsParseAt(ls, n, i);
    if i < n - 1 {
      AppendedLessonsAt(modules, ls, n - 1, courseId, i);
    }
  }

  lemma {:induction false} AppendedFunctionsPrefix(modules: seq<ModuleRow>, fs: seq<DocFunction>, n: nat, courseId: int, j: nat)
    requires n <= |fs| && j < |modules|
    ensures AppendedFunctions(modules, fs, n, courseId)[j] == modules[j]
  {
    if n > 0 {
      AppendedFunctionsPrefix(modules, fs, n - 1, courseId, j);
    }
  }

  /** Function i becomes the row after the i rows appended before it. */
  lemma {:induction false} AppendedFunctionsAt(modules: seq<ModuleRow>, fs: seq<DocFunction>, n: nat, courseId: int, i: nat)
    requires n <= |fs| && i < n
    ensures AppendedFunctions(modules, fs, n, courseId)[|modules| + i]
         == FunctionModuleRow(fs[i], Ordre(fs, fs[i]), courseId, |modules| + i + 1)
  {
    if i < n - 1 {
      AppendedFunctionsAt(modules, fs, n - 1, courseId, i);
    }
  }

  /** Appending a course's lessons, pointing to an existing course, keeps
      the module ids and foreign keys consistent. */
  lemma AppendedLessonsConsistent(courses: seq<CourseRow>, modules: seq<ModuleRow>, ls: seq<Lesson>, courseId: int)
    requires LessonsParse(ls, |ls|) && 1 <= courseId <= |courses|
    requires ModuleIdsSequential(modules) && ForeignKeysValid(courses, modules)
    ensures ModuleIdsSequential(AppendedLessons(modules, ls, |ls|, courseId))
    ensures ForeignKeysValid(courses, AppendedLessons(modules, ls, |ls|, courseId))
  {
    var rows := AppendedLessons(modules, ls, |ls|, courseId);
    forall j | 0 <= j < |rows|
      ensures rows[j].moduleId == j + 1 && 1 <= rows[j].formationId <= |courses|
    {
      if j < |modules| {
        AppendedLessonsPrefix(modules, ls, |ls|, courseId, j);
      } else {
        AppendedLessonsAt(modules, ls, |ls|, courseId, j - |modules|);
      }
    }
  }

  lemma AppendedFunctionsConsistent(courses: seq<CourseRow>, modules: seq<ModuleRow>, fs: seq<DocFunction>, courseId: int)
    requires 1 <= courseId <= |courses|
    requires ModuleIdsSequential(modules) && ForeignKeysValid(courses, modules)
    ensures ModuleIdsSequential(AppendedFunctions(modules, fs, |fs|, courseId))
    ensures ForeignKeysValid(courses, AppendedFunctions(modules, fs, |fs|, courseId))
  {
    var rows := AppendedFunctions(modules, fs, |fs|, courseId);
    forall j | 0 <= j < |rows|
      ensures rows[j].moduleId == j + 1 && 1 <= rows[j].formationId <= |courses|
    {
      if j < |modules| {
        AppendedFunctionsPrefix(modules, fs, |fs|, courseId, j);
      } else {
        AppendedFunctionsAt(modules, fs, |fs|, courseId, j - |modules|);
      }
    }
  }

  /** Appending a course row with the next id keeps the course ids
      sequential and every existing foreign key valid. */
  lemma AppendCourseConsistent(t: Collected, row: CourseRow)
    requires TablesConsistent(t) && row.formationId == |t.courses| + 1
    ensures CourseIdsSequential(t.courses + [row])
    ensures ForeignKeysValid(t.courses + [row], t.modules)
  {
  }

  /** The Kaggle loop keeps the tables consistent. */
  lemma {:induction false} AfterKaggleConsistent(ks: seq<KaggleCourse>, n: nat)
    requires n <= |ks| && LessonsParseBefore(ks, n)
    ensures TablesConsistent(AfterKaggle(ks, n))
  {
    if n > 0 {
      var t := AfterKaggle(ks, n - 1);
      AfterKaggleConsistent(ks, n - 1);
      var row := KaggleCourseRow(ks[n - 1], |t.courses| + 1);
      AppendCourseConsistent(t, row);
      AppendedLessonsConsistent(t.courses + [row], t.modules, ks[n - 1].lessons, n);
    }
  }

  /** The documentation loop keeps consistent tables consistent. */
  lemma {:induction false} AfterDocsConsistent(start: Collected, ds: seq<DocModule>, n: nat)
    requires n <= |ds| && TablesConsistent(start)
    ensures TablesConsistent(AfterDocs(start, ds, n))
  {
    if n > 0 {
      var t := AfterDocs(start, ds, n - 1);
      AfterDocsConsistent(start, ds, n - 1);
      var row := DocCourseRow(ds[n - 1], |t.courses| + 1);
      AppendCourseConsistent(t, row);
      AppendedFunctionsConsistent(t.courses + [row], t.modules, ds[n - 1].functions, |t.courses| + 1);
    }
  }

  /** The course table has one row per course and per documentation module,
      the module table one row per lesson and per documented function; ids
      run 1, 2, ... and every `formation_id` of a module names a course row
      that carries that id. */
  lemma CollectedTablesConsistent(ks: seq<KaggleCourse>, ds: seq<DocModule>)
    requires AllLessonsParse(ks)
    ensures |CollectedTables(ks, ds).courses| == |ks| + |ds|
    ensures |CollectedTables(ks, ds).modules| == LessonTotal(ks, |ks|) + FunctionTotal(ds, |ds|)
    ensures TablesConsistent(CollectedTables(ks, ds))
    ensures forall j :: 0 <= j < |CollectedTables(ks, ds).modules| ==>
      var fk := CollectedTables(ks, ds).modules[j].formationId;
      1 <= fk <= |CollectedTables(ks, ds).courses| && CollectedTables(ks, ds).courses[fk - 1].formationId == fk
  {
    AfterKaggleConsistent(ks, |ks|);
    AfterDocsConsistent(AfterKaggle(ks, |ks|), ds, |ds|);
  }

  lemma {:induction false} LessonTotalMonotone(ks: seq<KaggleCourse>, c: nat, n: nat)
    requires c < n <= |ks|
    ensures LessonTotal(ks, c) + |ks[c].lessons| <= LessonTotal(ks, n)
  {
    if c < n - 1 {
      LessonTotalMonotone(ks, c, n - 1);
    }
  }

  lemma {:induction false} FunctionTotalMonotone(ds: seq<DocModule>, c: nat, n: nat)
    requires c < n <= |ds|
    ensures FunctionTotal(ds, c) + |ds[c].functions| <= FunctionTotal(ds, n)
  {
    if c < n - 1 {
      FunctionTotalMonotone(ds, c, n - 1);
    }
  }

  /** Kaggle course c is course row c, with id c + 1. */
  lemma {:induction false} AfterKaggleCourseAt(ks: seq<KaggleCourse>, n: nat, c: nat)
    requires n <= |ks| && LessonsParseBefore(ks, n) && c < n
    ensures AfterKaggle(ks, n).courses[c] == KaggleCourseRow(ks[c], c + 1)
  {
    if c < n - 1 {
      AfterKaggleCourseAt(ks, n - 1, c);
    }
  }

  /** One more Kaggle course leaves the module rows already there untouched. */
  lemma AfterKaggleStepPrefix(ks: seq<KaggleCourse>, n: nat, j: nat)
    requires 0 < n <= |ks| && LessonsParseBefore(ks, n) && j < LessonTotal(ks, n - 1)
    ensures AfterKaggle(ks, n).modules[j] == AfterKaggle(ks, n - 1).modules[j]
  {
    var t := AfterKaggle(ks, n - 1);
    var ls := ks[n - 1].lessons;
    AppendedLessonsPrefix(t.modules, ls, |ls|, n, j);
  }

  /** The lessons of the last Kaggle course appended follow the rows before
      them, ranked 1, 2, ... and pointing to its course row. */
  lemma AfterKaggleLastCourse(ks: seq<KaggleCourse>, n: nat, i: nat)
    requires 0 < n <= |ks| && LessonsParseBefore(ks, n) && i < |ks[n - 1].lessons|
    ensures LessonParses(ks[n - 1].lessons[i])
    ensures AfterKaggle(ks, n).modules[LessonTotal(ks, n - 1) + i]
         == LessonModuleRow(ks[n - 1].lessons[i], i + 1, n, LessonTotal(ks, n - 1) + i + 1)
  {
    var t := AfterKaggle(ks, n - 1);
    var ls := ks[n - 1].lessons;
    assert LessonsParse(ls, |ls|);
    assert |t.courses| + 1 == n && |t.modules| == LessonTotal(ks, n - 1);
    assert AfterKaggle(ks, n).modules == AppendedLessons(t.modules, ls, |ls|, n);
    AppendedLessonsAt(t.modules, ls, |ls|, n, i);
  }

  /** Lesson i of Kaggle course c is module row LessonTotal(ks, c) + i: its
      id is one more, its `ordre` is i + 1 and it points to course c + 1. */
  lemma {:induction false} AfterKaggleLessonAt(ks: seq<KaggleCourse>, n: nat, c: nat, i: nat)
    requires n <= |ks| && LessonsParseBefore(ks, n) && c < n && i < |ks[c].lessons|
    ensures LessonTotal(ks, c) + i < LessonTotal(ks, n)
    ensures LessonParses(ks[c].lessons[i])
    ensures AfterKaggle(ks, n).modules[LessonTotal(ks, c) + i]
         == LessonModuleRow(ks[c].lessons[i], i + 1, c + 1, LessonTotal(ks, c) + i + 1)
  {
    LessonTotalMonotone(ks, c, n);
    if c < n - 1 {
      LessonTotalMonotone(ks, c, n - 1);
      AfterKaggleLessonAt(ks, n - 1, c, i);
      AfterKaggleStepPrefix(ks, n, LessonTotal(ks, c) + i);
    } else {
      AfterKaggleLastCourse(ks, n, i);
    }
  }

  /** Appending documentation modules leaves the rows already there untouched. */
  lemma {:induction false} AfterDocsPrefix(start: Collected, ds: seq<DocModule>, n: nat)
    requires n <= |ds|
    ensures forall i :: 0 <= i < |start.courses| ==> AfterDocs(start, ds, n).courses[i] == start.courses[i]
    ensures forall j :: 0 <= j < |start.modules| ==> AfterDocs(start, ds, n).modules[j] == start.modules[j]
  {
    if n > 0 {
      AfterDocsPrefix(start, ds, n - 1);
      var t := AfterDocs(start, ds, n - 1);
      var fs := ds[n - 1].functions;
      forall j | 0 <= j < |start.modules|
        ensures AfterDocs(start, ds, n).modules[j] == start.modules[j]
      {
        AppendedFunctionsPrefix(t.modules, fs, |fs|, |t.courses| + 1, j);
      }
    }
  }

  /** Documentation module d is the d-th course row after `start`'s. */
  lemma {:induction false} AfterDocsCourseAt(start: Collected, ds: seq<DocModule>, n: nat, d: nat)
    requires n <= |ds| && d < n
    ensures AfterDocs(start, ds, n).courses[|start.courses| + d] == DocCourseRow(ds[d], |start.courses| + d + 1)
  {
    if d < n - 1 {
      AfterDocsCourseAt(start, ds, n - 1, d);
    }
  }

  /** One more documentation module leaves the module rows already there
      untouched. */
  lemma AfterDocsStepPrefix(start: Collected, ds: seq<DocModule>, n: nat, j: nat)
    requires 0 < n <= |ds| && j < |start.modules| + FunctionTotal(ds, n - 1)
    ensures j < |AfterDocs(start, ds, n - 1).modules|
    ensures AfterDocs(start, ds, n).modules[j] == AfterDocs(start, ds, n - 1).modules[j]
  {
    var t := AfterDocs(start, ds, n - 1);
    var fs := ds[n - 1].functions;
    AppendedFunctionsPrefix(t.modules, fs, |fs|, |t.courses| + 1, j);
  }

  /** The functions of the last documentation module appended follow the
      rows before them and point to its course row. */
  lemma AfterDocsLastModule(start: Collected, ds: seq<DocModule>, n: nat, i: nat)
    requires 0 < n <= |ds| && i < |ds[n - 1].functions|
    ensures AfterDocs(start, ds, n).modules[|start.modules| + FunctionTotal(ds, n - 1) + i]
         == FunctionModuleRow(ds[n - 1].functions[i], Ordre(ds[n - 1].functions, ds[n - 1].functions[i]),
                              |start.courses| + n, |start.modules| + FunctionTotal(ds, n - 1) + i + 1)
  {
    var t := AfterDocs(start, ds, n - 1);
    var fs := ds[n - 1].functions;
    assert |t.courses| + 1 == |start.courses| + n && |t.modules| == |start.modules| + FunctionTotal(ds, n - 1);
    assert AfterDocs(start, ds, n).modules == AppendedFunctions(t.modules, fs, |fs|, |t.courses| + 1);
    AppendedFunctionsAt(t.modules, fs, |fs|, |t.courses| + 1, i);
  }

  /** Function i of documentation module d follows the rows of the modules
      before it, and points to that module's course row. */
  lemma {:induction false} AfterDocsFunctionAt(start: Collected, ds: seq<DocModule>, n: nat, d: nat, i: nat)
    requires n <= |ds| && d < n && i < |ds[d].functions|
    ensures FunctionTotal(ds, d) + i < FunctionTotal(ds, n)
    ensures AfterDocs(start, ds, n).modules[|start.modules| + FunctionTotal(ds, d) + i]
         == FunctionModuleRow(ds[d].functions[i], Ordre(ds[d].functions, ds[d].functions[i]),
                              |start.courses| + d + 1, |start.modules| + FunctionTotal(ds, d) + i + 1)
  {
    FunctionTotalMonotone(ds, d, n);
    var j := |start.modules| + FunctionTotal(ds, d) + i;
    if d < n - 1 {
      FunctionTotalMonotone(ds, d, n - 1);
      AfterDocsFunctionAt(start, ds, n - 1, d, i);
      AfterDocsStepPrefix(start, ds, n, j);
    } else {
      assert d == n - 1;
      AfterDocsLastModule(start, ds, n, i);
    }
  }

  /** Row by row, the course table holds the Kaggle courses, then the
      documentation modules. */
  lemma CollectedCourseRows(ks: seq<KaggleCourse>, ds: seq<DocModule>)
    requires AllLessonsParse(ks)
    ensures |CollectedTables(ks, ds).courses| == |ks| + |ds|
    ensures forall c :: 0 <= c < |ks| ==> CollectedTables(ks, ds).courses[c] == KaggleCourseRow(ks[c], c + 1)
    ensures forall d :: 0 <= d < |ds| ==> CollectedTables(ks, ds).courses[|ks| + d] == DocCourseRow(ds[d], |ks| + d + 1)
  {
    var start := AfterKaggle(ks, |ks|);
    AfterDocsPrefix(start, ds, |ds|);
    forall c | 0 <= c < |ks| ensures start.courses[c] == KaggleCourseRow(ks[c], c + 1) {
      AfterKaggleCourseAt(ks, |ks|, c);
    }
    forall d | 0 <= d < |ds| ensures CollectedTables(ks, ds).courses[|ks| + d] == DocCourseRow(ds[d], |ks| + d + 1) {
      AfterDocsCourseAt(start, ds, |ds|, d);
    }
  }

  /** Lesson i of Kaggle course c is module row LessonTotal(ks, c) + i of
      the final table, ranked i + 1 and pointing to course c + 1. */
  lemma CollectedLessonRow(ks: seq<KaggleCourse>, ds: seq<DocModule>, c: nat, i: nat)
    requires AllLessonsParse(ks) && c < |ks| && i < |ks[c].lessons|
    ensures LessonParses(ks[c].lessons[i])
    ensures LessonTotal(ks, c) + i < |CollectedTables(ks, ds).modules|
    ensures CollectedTables(ks, ds).modules[LessonTotal(ks, c) + i]
         == LessonModuleRow(ks[c].lessons[i], i + 1, c + 1, LessonTotal(ks, c) + i + 1)
  {
    AfterKaggleLessonAt(ks, |ks|, c, i);
    AfterDocsPrefix(AfterKaggle(ks, |ks|), ds, |ds|);
  }

  /** Function i of documentation module d comes after all the lessons and
      the functions of the modules before it, and points to course
      |ks| + d + 1. */
  lemma CollectedFunctionRow(ks: seq<KaggleCourse>, ds: seq<DocModule>, d: nat, i: nat)
    requires AllLessonsParse(ks) && d < |ds| && i < |ds[d].functions|
    ensures LessonTotal(ks, |ks|) + FunctionTotal(ds, d) + i < |CollectedTables(ks, ds).modules|
    ensures CollectedTables(ks, ds).modules[LessonTotal(ks, |ks|) + FunctionTotal(ds, d) + i]
         == FunctionModuleRow(ds[d].functions[i], Ordre(ds[d].functions, ds[d].functions[i]),
                              |ks| + d + 1, LessonTotal(ks, |ks|) + FunctionTotal(ds, d) + i + 1)
  {
    AfterDocsFunctionAt(AfterKaggle(ks, |ks|), ds, |ds|, d, i);
  }

  // ---------------------------------------------------------------------
  // The flattening loops
  // ---------------------------------------------------------------------

  datatype CollectError = BadDuration(duration: string)

  /** The loop over one course's lessons: a module row per lesson, numbered
      after the rows already in `modules`, ranked 1, 2, ... and pointing to
      course `courseId`. The first duration that `float` cannot read raises. */
  method AppendLessons(ls: seq<Lesson>, courseId: int, modules: seq<ModuleRow>) returns (r: Result<seq<ModuleRow>, CollectError>)
    ensures r.Success? <==> LessonsParse(ls, |ls|)
    ensures r.Success? ==> r.value == AppendedLessons(modules, ls, |ls|, courseId)
    ensures r.Failure? ==> exists i :: 0 <= i < |ls| && LessonsParse(ls, i) && !LessonParses(ls[i])
                                       && r.error == BadDuration(ls[i].duration)
  {
    var rows := modules;
    var li := 0;
    while li < |ls|
      invariant 0 <= li <= |ls|
      invariant LessonsParse(ls, li)
      invariant rows == AppendedLessons(modules, ls, li, courseId)
    {
      var lesson := ls[li];
      var minutes := DurationMinutes(lesson.duration);
      if minutes.None? {
        if LessonsParse(ls, |ls|) {
          LessonsParseAt(ls, |ls|, li);
        }
        return Failure(BadDuration(lesson.duration));
      }
      rows := rows + [LessonModuleRow(lesson, li + 1, courseId, |rows| + 1)];
      li := li + 1;
    }
    r := Success(rows);
  }

  /** The loop over one documentation module's functions: a module row per
      function, numbered after the rows already in `modules` and pointing to
      course `courseId`. */
  method AppendFunctions(fs: seq<DocFunction>, courseId: int, modules: seq<ModuleRow>) returns (rows: seq<ModuleRow>)
    ensures rows == AppendedFunctions(modules, fs, |fs|, courseId)
  {
    rows := modules;
    var fi := 0;
    while fi < |fs|
      invariant 0 <= fi <= |fs|
      invariant rows == AppendedFunctions(modules, fs, fi, courseId)
    {
      var func := fs[fi];
      rows := rows + [FunctionModuleRow(func, Ordre(fs, func), courseId, |rows| + 1)];
      fi := fi + 1;
    }
  }

  /** The first pair of nested loops of `collect_all_real_data`: one course
      row per Kaggle course, then one module row per lesson. A lesson
      duration that `float` cannot read raises, and nothing is returned. */
  method FlattenKaggle(kaggle: seq<KaggleCourse>) returns (r: Result<Collected, CollectError>)
    ensures r.Success? <==> AllLessonsParse(kaggle)
    ensures r.Failure? ==> DurationMinutes(r.error.duration).None?
    ensures r.Success? ==> r.value == AfterKaggle(kaggle, |kaggle|)
  {
    var courses: seq<CourseRow> := [];
    var modules: seq<ModuleRow> := [];
    var ci := 0;
    while ci < |kaggle|
      invariant 0 <= ci <= |kaggle|
      invariant LessonsParseBefore(kaggle, ci)
      invariant Collected(courses, modules) == AfterKaggle(kaggle, ci)
    {
      var course := kaggle[ci];
      courses := courses + [KaggleCourseRow(course, |courses| + 1)];
      var appended := AppendLessons(course.lessons, |courses|, modules);
      if appended.Failure? {
        if AllLessonsParse(kaggle) {
          LessonsParseBeforeCourse(kaggle, |kaggle|, ci);
        }
        return Failure(appended.error);
      }
      modules := appended.value;
      ci := ci + 1;
    }
    r := Success(Collected(courses, modules));
  }

  /** The second pair of nested loops: one course row per documentation
      module, then one module row per documented function, appended to the
      tables the first loops built. */
  method FlattenDocs(docs: seq<DocModule>, tables: Collected) returns (r: Collected)
    ensures r == AfterDocs(tables, docs, |docs|)
  {
    var courses, modules := tables.courses, tables.modules;
    var di := 0;
    while di < |docs|
      invariant 0 <= di <= |docs|
      invariant Collected(courses, modules) == AfterDocs(tables, docs, di)
    {
      var docModule := docs[di];
      courses := courses + [DocCourseRow(docModule, |courses| + 1)];
      modules := AppendFunctions(docModule.functions, |courses|, modules);
      assert Collected(courses, modules) == AfterDocs(tables, docs, di + 1);
      di := di + 1;
    }
    r := Collected(courses, modules);
  }

  /** The course and module loops of `collect_all_real_data`, in order. */
  method FlattenCatalogs(kaggle: seq<KaggleCourse>, docs: seq<DocModule>) returns (r: Result<Collected, CollectError>)
    ensures r.Success? <==> AllLessonsParse(kaggle)
    ensures r.Failure? ==> DurationMinutes(r.error.duration).None?
    ensures r.Success? ==> r.value == CollectedTables(kaggle, docs)
  {
    r := FlattenKaggle(kaggle);
    if r.Success? {
      var tables := FlattenDocs(docs, r.value);
      r := Success(tables);
    }
  }

  // ---------------------------------------------------------------------
  // The shipped catalogs
  // ---------------------------------------------------------------------

  /** The catalog's durations "1h", "1.5h" and "2h" give 60, 90 and 120 minutes. */
  lemma StandardDurationMinutes(d: string)
    requires StandardDuration(d)
    ensures DurationMinutes(d) == Some(if d == "1h" then 60 else if d == "1.5h" then 90 else 120)
  {
    if d == "1h" {
      assert d == "1" + "h";
      WholeHoursMinutes("1");
    } else if d == "2h" {
      assert d == "2" + "h";
      WholeHoursMinutes("2");
    } else {
      assert d == "1" + ".5h";
      HalfHoursMinutes("1", 1);
    }
  }

  /** A course whose lessons all use the catalog's durations never makes the
      script raise; every lesson list of the shipped catalog is such a list. */
  lemma {:induction false} StandardLessonsParse(ls: seq<Lesson>, n: nat)
    requires n <= |ls|
    requires forall i :: 0 <= i < |ls| ==> StandardDuration(ls[i].duration)
    ensures LessonsParse(ls, n)
  {
    if n > 0 {
      StandardLessonsParse(ls, n - 1);
      StandardDurationMinutes(ls[n - 1].duration);
    }
  }

  /** In the shipped documentation catalog the functions of each module are
      pairwise distinct, so they are ranked 1, 2, ... in list order. */
  lemma ShippedFunctionsRanked(d: nat, i: nat)
    requires d < |DocCatalog()| && i < |DocCatalog()[d].functions|
    ensures Ordre(DocCatalog()[d].functions, DocCatalog()[d].functions[i]) == i + 1
  {
    OrdreOfDistinct(DocCatalog()[d].functions, i);
  }

  /** A catalog whose lessons all use the standard durations passes the
      readability condition in every course. */
  lemma {:induction false} StandardCatalogParses(ks: seq<KaggleCourse>, n: nat)
    requires n <= |ks|
    requires forall c, i :: 0 <= c < |ks| && 0 <= i < |ks[c].lessons| ==> StandardDuration(ks[c].lessons[i].duration)
    ensures LessonsParseBefore(ks, n)
  {
    if n > 0 {
      StandardCatalogParses(ks, n - 1);
      StandardLessonsParse(ks[n - 1].lessons, |ks[n - 1].lessons|);
    }
  }

  /** The tables collected from catalogs shaped like the shipped ones: five
      courses of 7, 6, 6, 7 and 6 lessons in standard durations, and three
      documentation modules of 8, 6 and 6 functions. */
  lemma CatalogShapeTables(ks: seq<KaggleCourse>, ds: seq<DocModule>)
    requires |ks| == 5
    requires |ks[0].lessons| == 7 && |ks[1].lessons| == 6 && |ks[2].lessons| == 6
    requires |ks[3].lessons| == 7 && |ks[4].lessons| == 6
    requires forall c, i :: 0 <= c < |ks| && 0 <= i < |ks[c].lessons| ==> StandardDuration(ks[c].lessons[i].duration)
    requires |ds| == 3 && |ds[0].functions| == 8 && |ds[1].functions| == 6 && |ds[2].functions| == 6
    ensures AllLessonsParse(ks)
    ensures |CollectedTables(ks, ds).courses| == 8
    ensures |CollectedTables(ks, ds).modules| == 52
    ensures TablesConsistent(CollectedTables(ks, ds))
  {
    StandardCatalogParses(ks, |ks|);
    CollectedTablesConsistent(ks, ds);
    assert LessonTotal(ks, 1) == 7;
    assert LessonTotal(ks, 2) == 13;
    assert LessonTotal(ks, 3) == 19;
    assert LessonTotal(ks, 4) == 26;
    assert LessonTotal(ks, 5) == 32;
    assert FunctionTotal(ds, 1) == 8;
    assert FunctionTotal(ds, 2) == 14;
    assert FunctionTotal(ds, 3) == 20;
  }

  /** On the shipped catalogs the script runs to the end and writes 8 courses
      and 52 modules, with consistent ids and foreign keys. */
  lemma ShippedTables()
    ensures AllLessonsParse(KaggleCatalog)
    ensures |CollectedTables(KaggleCatalog, DocCatalog()).courses| == 8
    ensures |CollectedTables(KaggleCatalog, DocCatalog()).modules| == 52
    ensures TablesConsistent(CollectedTables(KaggleCatalog, DocCatalog()))
  {
    KaggleCatalogShape();
    CatalogShapeTables(KaggleCatalog, DocCatalog());
  }
}
