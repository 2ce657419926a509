# RAG-with-langchain, modelled in Dafny

The repository is a set of Streamlit pages around a Gemini language model.
Three pieces of it hold logic that can be stated exactly, and this project
models those three pieces.

- **The collection script** (`collecte_donnees.py`). It walks two fixed
  catalogs:
  - the Kaggle Learn courses, each with its lessons;
  - the Python documentation modules, each with its functions.

  It flattens them into a course table (`formations`) and a module table
  (`modules`). Every course gets the next `formation_id`. Every lesson or
  function becomes a module row with:
  - the next `module_id`;
  - the id of the course appended just before it;
  - its rank `ordre`;
  - a duration in minutes.

  `Collection.FlattenCatalogs` and the methods below it run these loops. They
  are proved equal to the specification function `Collection.CollectedTables`,
  and the lemmas prove what that function's tables hold.
- **The course generator page** (`agent_donnees_reelles.py`). It covers:
  - the choice between the collected files and a built-in sample;
  - the domain-then-level filter of the course table;
  - the record kept for each successful generation, in an append-only
    session list (the class `Agent.GenerationSession`);
  - the "last five, newest first" history view;
  - the 500-character preview.
- **The chat page** (`llm_with_langchain.py`). It covers:
  - `create_prompt`, which renders the chat history as `role: content` lines
    and fills the `[INST] ... Answer:` template, then strips it;
  - the script run that builds the prompt, then appends the question to
    `chat_history` (the class `ChatPrompt.ChatSession`).

Files:
- `util.dfy`: `Util`. Option and Result, and `Unique` (pandas `unique()`,
  first-occurrence order). Also subsequences, `str.replace(c, '')` and
  `list.index`.
- `tables.dfy`: `Tables`. The rows of the course, module and exercise tables.
- `catalogs.dfy`: `Catalogs`. The three catalog literals of the collection
  script, as constants, with lemmas giving their shape.
- `collection.dfy`: `Collection`. Duration parsing, the flattening loops and
  the consistency of their result.
- `agent.dfy`: `Agent`. Loading, filtering, generation records, history view
  and preview.
- `prompt.dfy`: `ChatPrompt`. The history text, `strip`, the prompt, and the
  chat session.

Durations are parsed with exact decimals. `float(s)` on an unsigned decimal
becomes `n / 10^k`, and `int(x * 60)` becomes a truncating division. This
equals the floating-point result on every duration in the catalogs.

In these places the program does something easy to misread; the model follows the code:
- The level is checked against the whole course table, not against the
  domain-filtered rows. A level found only outside the chosen domain
  therefore empties the result.
- An empty filtered course table is rendered and passed to the chain as it
  is. No placeholder text is used.
- The chat page appends only the user's entry, never an assistant entry. It
  appends that entry even when the model call fails.
- The `ordre` of a documentation function counts the entries whose first
  occurrence is at or before its own. It runs 1..k only when the entries are
  distinct; `Collection.OrdreOfRepeatedEntry` shows a repeated entry.
- A lesson duration that `float` cannot read makes the whole collection
  fail. No partial table is produced.

## Model

| member | source | states |
|---|---|---|
| Collection.FlattenCatalogs | collecte_donnees.py:230-283 | Succeeds exactly when every lesson duration of every Kaggle course is readable; on failure reports a duration `float` rejects; on success returns exactly the two flattened tables of `CollectedTables` |
| Collection.FlattenKaggle | collecte_donnees.py:234-256 | The Kaggle loop: succeeds iff every lesson duration parses, reports an unreadable duration otherwise, and builds one course row followed by its lesson rows per course |
| Collection.AppendLessons | collecte_donnees.py:247-256 | The lesson loop of one course: succeeds iff all its durations parse, fails on the first lesson whose duration does not parse (all earlier ones do), and otherwise appends one row per lesson in order |
| Collection.FlattenDocs | collecte_donnees.py:259-283 | The documentation loop: continues the tables it is given with one course row per module, each followed by one module row per documented function |
| Collection.AppendFunctions | collecte_donnees.py:272-283 | The function loop of one documentation module appends one row per function in order, numbered after the existing rows, pointing to the given course |
| Collection.CollectedTables | collecte_donnees.py:230-283 | Definition of the two tables the script builds: the Kaggle courses with their lessons, then the documentation modules with their functions; its properties are the lemmas `CollectedTablesConsistent`, `CollectedCourseRows`, `CollectedLessonRow` and `CollectedFunctionRow` |
| Collection.KaggleCourseRow | collecte_donnees.py:235-244 | Definition of a Kaggle course's row: next id, its title, "Data Science", its level, its total duration with every `h` removed, its prerequisites and description, "Kaggle Learn"; proved to be row c by `CollectedCourseRows` |
| Collection.DocCourseRow | collecte_donnees.py:260-269 | Definition of a documentation module's row: "Python " + module, "Programming", "Beginner", 4 hours, "None", "Learn " + module + " in Python", "Python Documentation"; proved to follow the Kaggle rows by `CollectedCourseRows` |
| Collection.LessonModuleRow | collecte_donnees.py:248-256 | Definition of a lesson's row, defined only when its duration is readable; placed and numbered by `CollectedLessonRow` |
| Collection.FunctionModuleRow | collecte_donnees.py:273-283 | Definition of a documented function's row, always 30 minutes; placed and numbered by `CollectedFunctionRow` |
| Collection.CollectedTablesConsistent | collecte_donnees.py:234-283 | There are as many course rows as Kaggle courses and documentation modules together, and as many module rows as lessons and documented functions together; `formation_id` runs 1..n and `module_id` 1..m in append order; every module's `formation_id` names an existing course row carrying that id |
| Collection.CollectedCourseRows | collecte_donnees.py:234-269 | Course c of the Kaggle catalog is row c with id c+1, domaine "Data Science", its own level, hours with every `h` removed, source "Kaggle Learn"; documentation module d follows as row n+d with titre "Python " + module, domaine "Programming", niveau "Beginner", 4 hours, prerequis "None" |
| Collection.CollectedLessonRow | collecte_donnees.py:247-256 | Lesson i of Kaggle course c sits after the lessons of the courses before it, with ordre i+1, the course's id c+1, the next module id, and its duration in minutes |
| Collection.CollectedFunctionRow | collecte_donnees.py:272-283 | Function i of documentation module d sits after all lessons and the functions of the modules before it, points to the course row of its module (id: Kaggle course count + d + 1), lasts 30 minutes and carries the module's `ordre` rule |
| Collection.LessonsParseBeforeIff | collecte_donnees.py:247-253 | The loop's readability condition holds for the first n courses iff every lesson of those courses has a readable duration |
| Collection.LessonsParseIff | collecte_donnees.py:247-253 | The per-course readability condition holds iff every lesson of the course has a readable duration |
| Collection.Ordre | collecte_donnees.py:276 | A function's `ordre` lies strictly after its first position and never exceeds the number of functions in the module |
| Collection.OrdreOfDistinct | collecte_donnees.py:276 | When a module's entries are pairwise distinct, the entry at position j gets `ordre` j+1 |
| Collection.OrdreOfRepeatedEntry | collecte_donnees.py:276 | An entry listed twice gets `ordre` 2 for both copies, so `ordre` is not its position |
| Collection.ShippedFunctionsRanked | collecte_donnees.py:114-159 | In the shipped documentation catalog every function's `ordre` is its position plus one |
| Collection.ParseDecimal | collecte_donnees.py:253 | Definition of `float` on an unsigned decimal as an exact fraction n / 10^k, `None` where `float` raises; its readings are proved by `WholeHoursMinutes`, `ParseHalf` and `HalfHoursMinutes` |
| Collection.DurationMinutes | collecte_donnees.py:253 | Definition of `int(float(d.replace('h', '')) * 60)`; its values are proved by `WholeHoursMinutes`, `HalfHoursMinutes` and `StandardDurationMinutes` |
| Collection.SplitAtPoint | collecte_donnees.py:253 | The text splits around its first '.' into two parts that rebuild it, or has no '.' at all |
| Collection.WholeHoursMinutes | collecte_donnees.py:253 | A duration "Nh" with N a string of digits lasts 60·N minutes |
| Collection.ParseHalf | collecte_donnees.py:253 | "N.5" reads as the exact decimal (10·N + 5) tenths |
| Collection.HalfHoursMinutes | collecte_donnees.py:253 | A duration "N.5h" with N a string of digits lasts 60·N + 30 minutes |
| Collection.StandardDurationMinutes | collecte_donnees.py:253 | Each duration used in the Kaggle catalog reads as 60, 90 or 120 minutes |
| Collection.StandardLessonsParse | collecte_donnees.py:247-253 | A course whose lessons all use the catalog's standard durations passes the loop's readability condition |
| Collection.StandardCatalogParses | collecte_donnees.py:234-253 | A catalog whose lessons all use the standard durations passes the readability condition in every course |
| Collection.CatalogShapeTables | collecte_donnees.py:230-283 | Catalogs of 5 courses with 7, 6, 6, 7 and 6 lessons in standard durations and 3 modules of 8, 6 and 6 functions collect without error into 8 course rows and 52 module rows with consistent ids and foreign keys |
| Collection.ShippedTables | collecte_donnees.py:18-283 | On the shipped catalogs every lesson duration is readable and the script writes 8 courses and 52 modules with consistent ids and foreign keys |
| Catalogs.KaggleCatalogShape | collecte_donnees.py:18-108 | The Kaggle catalog has 5 courses of 7, 6, 6, 7 and 6 lessons, every lesson lasting 1h, 1.5h or 2h |
| Catalogs.BuiltInFunctions | collecte_donnees.py:122-131 | 8 pairwise distinct function entries |
| Catalogs.StringMethods | collecte_donnees.py:136-143 | 6 pairwise distinct function entries |
| Catalogs.ListMethods | collecte_donnees.py:148-155 | 6 pairwise distinct function entries |
| Catalogs.DocCatalog | collecte_donnees.py:114-159 | 3 documentation modules of 8, 6 and 6 functions, each listing pairwise distinct functions |
| Catalogs.ExerciseCatalogShape | collecte_donnees.py:165-214 | 2 exercise categories of 2 and 1 exercises; every exercise has starter code, a solution and two test cases |
| Util.RemoveAll | collecte_donnees.py:240 | `replace('h', '')` leaves no `h` and never lengthens the text; `RemoveAllKeeps` proves every other character is kept, in order and as often |
| Util.RemoveAllKeeps | collecte_donnees.py:240 | The result is a subsequence of the input, and every character other than the removed one occurs in it exactly as often as in the input |
| Util.RemoveAllMembership | collecte_donnees.py:240 | Every other character is kept: it occurs in the result iff it occurs in the input |
| Util.RemoveAllAbsent | collecte_donnees.py:240 | A text without the character is left unchanged |
| Util.RemoveAllAppend | collecte_donnees.py:240 | Removing a character from a concatenation removes it from each part |
| Util.FirstIndex | collecte_donnees.py:276 | `list.index(x)`: a position holding x, with no x before it |
| Util.Unique | agent_donnees_reelles.py:118-119 | pandas `unique()`: no duplicates, exactly the values of the input, never more of them |
| Util.UniqueFirstOccurrenceOrder | agent_donnees_reelles.py:329 | `unique()` lists values in the order of their first occurrence |
| Agent.SampleData | agent_donnees_reelles.py:56-80 | The sample has 2 courses, 2 modules and 1 exercise category, has a `source` column, and its ids and foreign keys are consistent |
| Agent.LoadRealData | agent_donnees_reelles.py:22-54 | A missing course file or any read failure gives the whole sample; otherwise the course table is the file's, a missing module file gives no modules and a missing exercise file gives no exercises |
| Agent.ColumnValues | agent_donnees_reelles.py:284 | A column lists one value per row, in row order |
| Agent.InColumn | agent_donnees_reelles.py:284 | `v in df[col].values` iff some row holds v in that column |
| Agent.Select | agent_donnees_reelles.py:285 | `df[df[col] == v]` keeps rows in their order, keeps exactly the rows holding v, and keeps each of them as many times as it occurs |
| Agent.Filtered | agent_donnees_reelles.py:283-287 | The filtered rows are an order-preserving subsequence of the table, and the `source` column is kept or absent as in the table |
| Agent.FilterFormations | agent_donnees_reelles.py:283-287 | The step-by-step filter computes the domain-then-level filter `Filtered` |
| Agent.FilteredMembership | agent_donnees_reelles.py:283-287 | A row survives iff it is in the table, has the chosen domain when that domain is non-empty and occurs in the table, and has the chosen level when that level is non-empty and occurs in the whole table |
| Agent.FilterPassesThrough | agent_donnees_reelles.py:283-287 | With neither the domain nor the level found, the table passes through unchanged |
| Agent.LevelOutsideDomainEmpties | agent_donnees_reelles.py:286-287 | A level found in the table but in no row of the chosen domain leaves no rows |
| Agent.FilterIdempotent | agent_donnees_reelles.py:283-287 | Filtering the filtered table again with the same choices changes nothing |
| Agent.Options | agent_donnees_reelles.py:118-119 | The choices offered are the distinct values of the column, or only the default when the table is empty |
| Agent.DomainOptions | agent_donnees_reelles.py:118 | The domains offered are the distinct domains of the table, or only "Programming" when it is empty |
| Agent.LevelOptions | agent_donnees_reelles.py:119 | The levels offered are the distinct levels of the table, or only "Beginner" when it is empty |
| Agent.OfferedChoicesApply | agent_donnees_reelles.py:118-125 | Any non-empty domain and level picked from the offered choices both apply, and then exactly the rows with that domain and that level survive |
| Agent.ChainInputFor | agent_donnees_reelles.py:290-300 | Definition of the chain input: the filtered rows rendered even when none are left, the whole module and exercise data or a placeholder when there is none, and the request's settings; `GenerationSession.Generate` states that the chain receives it |
| Agent.SourcesUsed | agent_donnees_reelles.py:329 | `sources_utilisees` lists each source once, and lists exactly the sources of the filtered rows (none without a `source` column) |
| Agent.SourcesInRowOrder | agent_donnees_reelles.py:329 | Sources are listed in the order of their first occurrence among the filtered rows |
| Agent.SourcesBound | agent_donnees_reelles.py:329-330 | There are never more sources listed than `nb_formations_source` |
| Agent.MakeRecord | agent_donnees_reelles.py:321-331 | The record copies the timestamp, the generated text and the request's settings, lists each source of the filtered rows once and nothing else, and counts the filtered rows, never fewer than the sources |
| Agent.GenerationSession.constructor | agent_donnees_reelles.py:92-93 | The session starts with no generated courses |
| Agent.GenerationSession.Generate | agent_donnees_reelles.py:273-359 | An empty request keeps the list; a chain failure keeps the list; a chain answer appends exactly one record, built from the filtered rows, and nothing else changes; every kept record lists distinct sources, no more than its course count |
| Agent.Reversed | agent_donnees_reelles.py:431 | `reversed` puts element i at position n-1-i |
| Agent.HistoryView | agent_donnees_reelles.py:431 | The view shows min(5, n) records, newest first |
| Agent.HistoryViewAfterAppend | agent_donnees_reelles.py:431 | After one more record the view starts with it, followed by the first four records of the previous view |
| Agent.Preview | agent_donnees_reelles.py:446 | Content up to 500 characters is shown whole; longer content shows its first 500 characters followed by "..." |
| ChatPrompt.RenderedLines | llm_with_langchain.py:61 | One `role: content` line per history entry, in list order |
| ChatPrompt.HistoryText | llm_with_langchain.py:61 | Definition of `history_str`, the rendered lines joined with "\n"; its properties are `HistoryTextAppend` and `HistoryTextLines` |
| ChatPrompt.HistoryTextAppend | llm_with_langchain.py:61 | The empty history gives the empty text; one more entry adds one more line at the end |
| ChatPrompt.SplitJoin | llm_with_langchain.py:61 | Lines without line breaks, joined with "\n", split back into the same lines |
| ChatPrompt.JoinSplit | llm_with_langchain.py:61 | Splitting a text at "\n" and joining the pieces gives the text back |
| ChatPrompt.HistoryTextLines | llm_with_langchain.py:61 | For a non-empty history in which no entry holds a line break, the history text splits back into exactly one rendered line per entry |
| ChatPrompt.LeadingSpace | llm_with_langchain.py:86 | The count covers only white space and stops at the first other character |
| ChatPrompt.StripLeading | llm_with_langchain.py:86 | The result is a suffix of the input that does not start with white space, and the part removed is all white space |
| ChatPrompt.StripTrailing | llm_with_langchain.py:86 | The result is a prefix of the input that does not end with white space, and the part removed is all white space |
| ChatPrompt.Strip | llm_with_langchain.py:86 | The result neither starts nor ends with white space, and is empty exactly when the text is all white space |
| ChatPrompt.StripBounds | llm_with_langchain.py:86 | `strip()` keeps one contiguous piece of the text and removes only white space before and after it |
| ChatPrompt.StripFramed | llm_with_langchain.py:86 | `strip()` of a text surrounded by white space and neither starting nor ending with it gives that text |
| ChatPrompt.FramedShape | llm_with_langchain.py:62-85 | The filled template starts with "[INST]", ends with "Answer:" and holds the history text right after its head |
| ChatPrompt.SlotsInOrder | llm_with_langchain.py:71-81 | The history, the context and the question sit in that order, each between its own fixed tags |
| ChatPrompt.CreatePrompt | llm_with_langchain.py:59-87 | Stripping removes exactly the line breaks opening and closing the literal: the prompt is the filled template, whatever the history, context and question hold |
| ChatPrompt.UserEntryAppended | llm_with_langchain.py:135 | Appending a user entry keeps a history of user entries only |
| ChatPrompt.OnlyUserEntriesAt | llm_with_langchain.py:135 | In such a history every entry has role "user" |
| ChatPrompt.ChatSession.constructor | llm_with_langchain.py:113-117 | The session starts with an empty history and the "no context yet" text |
| ChatPrompt.ChatSession.Run | llm_with_langchain.py:119-136 | Without an API key or a readable data file the run stops and changes nothing; otherwise the prompt is built from the previous context and the history before the question, the answer is the model's or the apology, exactly one user entry is appended and the context becomes the new table head |
| ChatPrompt.ChatSession.Ask | llm_with_langchain.py:129-136 | Builds the prompt from the state before the run, answers it, then records the question and the new context |
| ChatPrompt.ChatSession.Record | llm_with_langchain.py:131-135 | Appends exactly one user entry and sets the context to the new table head |

## Left out

- The Streamlit interface is not modelled: widgets, columns, tabs, charts,
  download buttons, example-query buttons, messages and `st.cache_data`.
  Session state is modelled only as the lists it holds.
- The Gemini and LangChain calls are parameters that may fail:
  `get_gemini_response`, `get_gemini_response_with_langchain`,
  `LLMChain.invoke` and `ConversationBufferMemory`. The second half of the
  chat page, which uses the LangChain chain and its memory, is not modelled.
- File I/O is not modelled: `read_csv`, `to_csv`, `json.load` and
  `json.dump`. File existence and read failures are inputs (`FileState`). The
  chat page's hard-coded CSV becomes an optional table head; an unreadable
  file stops the run.
- `DataFrame.to_string` and `json.dumps` are opaque functions (`Renderers`).
  The model only says which rows and values are handed to them.
- `float` is modelled only on unsigned decimals. Signs, exponents,
  surrounding white space, underscores, `inf` and `nan` are not. Rounding is
  exact decimal arithmetic, not binary floating point.
- The API-key lookup is a boolean, and `st.stop` is the `Stopped` outcome.
  `datetime.now()` timestamps are a parameter. File names are not modelled.
- `formations_context` (agent_donnees_reelles.py:278) is computed but never
  used, so it is not modelled.
- The mean module duration and the sum of hours are display only and are not
  modelled.
- The exercise catalog is written out unchanged, so only its shape is
  stated (`ExerciseCatalogShape`).
- Tables read from files are taken to have `domaine` and `niveau` columns.
  Only the `source` column is optional (`CourseTable.hasSource`).
- The collection script's progress messages are not modelled.
