/** The three hand-written catalogs the collection script starts from. They
    are constant inputs: the flattening in module Collection turns the first
    two into the course and module tables; the third is written out as is. */
module Catalogs {
  import opened Util
  import opened Tables

  datatype Lesson = Lesson(lesson: string, duration: string, concepts: string)

  datatype KaggleCourse = KaggleCourse(
    courseId: string,
    title: string,
    description: string,
    lessons: seq<Lesson>,
    totalDuration: string,
    level: string,
    prerequisites: string)

  datatype DocFunction = DocFunction(name: string, description: string, example: string, level: string)

  datatype DocModule = DocModule(moduleName: string, category: string, functions: seq<DocFunction>)

  /** The lesson durations the catalog uses. */
  predicate StandardDuration(d: string)
  {
    d == "1h" || d == "1.5h" || d == "2h"
  }

  /** The lessons of the Python course. */
  const PythonLessons: seq<Lesson> :=
    [
      Lesson("Hello, Python", "1h", "Variables, calling functions, help()"),
      Lesson("Functions and Getting Help", "1h", "Defining functions, default arguments, help"),
      Lesson("Booleans and Conditionals", "1h", "Boolean logic, if/elif/else, comparison operators"),
      Lesson("Lists", "1h", "List creation, indexing, slicing, methods"),
      Lesson("Loops and List Comprehensions", "1.5h", "for loops, while loops, list comprehensions"),
      Lesson("Strings and Dictionaries", "1.5h", "String methods, dictionaries, key-value pairs"),
      Lesson("Working with External Libraries", "1h", "import, math, numpy basics")
    ]

  /** The lessons of the Pandas course. */
  const PandasLessons: seq<Lesson> :=
    [
      Lesson("Creating, Reading and Writing", "1h", "DataFrames, Series, reading CSV/JSON"),
      Lesson("Indexing, Selecting & Assigning", "1h", "loc, iloc, conditional selection"),
      Lesson("Summary Functions and Maps", "1h", "describe(), map(), apply()"),
      Lesson("Grouping and Sorting", "1h", "groupby(), value_counts(), sort_values()"),
      Lesson("Data Types and Missing Values", "1h", "dtypes, isnull(), fillna(), replace()"),
      Lesson("Renaming and Combining", "1h", "rename(), concat(), join(), merge()")
    ]

  /** The lessons of the Data Visualization course. */
  const DataVisualizationLessons: seq<Lesson> :=
    [
      Lesson("Hello, Seaborn", "1h", "Basic plots, trends, patterns"),
      Lesson("Line Charts", "1h", "Temporal data, multiple lines, styling"),
      Lesson("Bar Charts and Heatmaps", "1h", "Categorical data, correlation matrices"),
      Lesson("Scatter Plots", "1h", "Relationships, color coding, regression"),
      Lesson("Distributions", "1h", "Histograms, density plots, box plots"),
      Lesson("Choosing Plot Types and Custom Styles", "1h", "Plot selection, themes, colors")
    ]

  /** The lessons of the Intro to Machine Learning course. */
  const MachineLearningLessons: seq<Lesson> :=
    [
      Lesson("How Models Work", "1h", "Decision trees, prediction, model fitting"),
      Lesson("Basic Data Exploration", "1h", "Data loading, describe(), head()"),
      Lesson("Your First Machine Learning Model", "1.5h", "scikit-learn, fit(), predict()"),
      Lesson("Model Validation", "1.5h", "train/test split, MAE, validation"),
      Lesson("Underfitting and Overfitting", "1.5h", "Model complexity, validation curves"),
      Lesson("Random Forests", "1.5h", "Ensemble methods, feature importance"),
      Lesson("Machine Learning Competitions", "1h", "Kaggle competitions, submissions")
    ]

  /** The lessons of the Intro to SQL course. */
  const SqlLessons: seq<Lesson> :=
    [
      Lesson("Getting Started With SQL and BigQuery", "1h", "SELECT, FROM, basic queries"),
      Lesson("Select, From & Where", "1h", "Filtering, WHERE clauses, conditions"),
      Lesson("Group By, Having & Count", "1.5h", "Aggregation, GROUP BY, COUNT, SUM"),
      Lesson("Order By", "1h", "Sorting results, ASC/DESC"),
      Lesson("As & With", "1h", "Aliases, CTEs, readable queries"),
      Lesson("Joining Data", "2h", "INNER JOIN, LEFT JOIN, table relationships")
    ]

  /** The Kaggle Learn courses of `collect_kaggle_learn_data`. */
  const KaggleCatalog: seq<KaggleCourse> :=
    [
      KaggleCourse(
        "python", "Python",
        "Learn the most important language for data science",
        PythonLessons,
        "8h", "Beginner", "None"),
      KaggleCourse(
        "pandas", "Pandas",
        "Solve real-world data science problems with Python Pandas",
        PandasLessons,
        "6h", "Intermediate", "Python basics"),
      KaggleCourse(
        "data-visualization", "Data Visualization",
        "Make great data visualizations",
        DataVisualizationLessons,
        "6h", "Intermediate", "Python, Pandas"),
      KaggleCourse(
        "machine-learning", "Intro to Machine Learning",
        "Learn the core ideas in machine learning",
        MachineLearningLessons,
        "9h", "Intermediate", "Python, Pandas"),
      KaggleCourse(
        "sql", "Intro to SQL",
        "Learn SQL for working with databases",
        SqlLessons,
        "7.5h", "Beginner", "None")
    ]

  /** The shape of the Kaggle catalog: five courses of 7, 6, 6, 7 and 6
      lessons, every lesson lasting 1h, 1.5h or 2h. */
  lemma KaggleCatalogShape()
    ensures |KaggleCatalog| == 5
    ensures |KaggleCatalog[0].lessons| == 7 && |KaggleCatalog[1].lessons| == 6 && |KaggleCatalog[2].lessons| == 6
    ensures |KaggleCatalog[3].lessons| == 7 && |KaggleCatalog[4].lessons| == 6
    ensures forall c, i :: 0 <= c < |KaggleCatalog| && 0 <= i < |KaggleCatalog[c].lessons| ==>
      StandardDuration(KaggleCatalog[c].lessons[i].duration)
  {
  }

  /** The documented functions of the Built-in Functions module. */
  function BuiltInFunctions(): (fs: seq<DocFunction>)
    ensures |fs| == 8
    ensures NoDuplicates(fs)
  {
    [
      DocFunction("print()", "Display output to console", "print(\"Hello World\")", "Beginner"),
      DocFunction("len()", "Return length of object", "len([1, 2, 3])", "Beginner"),
      DocFunction("type()", "Return type of object", "type(42)", "Beginner"),
      DocFunction("range()", "Generate sequence of numbers", "range(0, 10, 2)", "Beginner"),
      DocFunction("enumerate()", "Add counter to iterable", "enumerate([\"a\", \"b\"])", "Intermediate"),
      DocFunction("zip()", "Combine multiple iterables", "zip([1, 2], [\"a\", \"b\"])", "Intermediate"),
      DocFunction("map()", "Apply function to iterable", "map(str.upper, [\"a\", \"b\"])", "Advanced"),
      DocFunction("filter()", "Filter elements from iterable", "filter(lambda x: x > 0, [-1, 1, 2])", "Advanced")
    ]
  }

  /** The documented functions of the String Methods module. */
  function StringMethods(): (fs: seq<DocFunction>)
    ensures |fs| == 6
    ensures NoDuplicates(fs)
  {
    [
      DocFunction("str.upper()", "Convert to uppercase", "\"hello\".upper()", "Beginner"),
      DocFunction("str.lower()", "Convert to lowercase", "\"HELLO\".lower()", "Beginner"),
      DocFunction("str.split()", "Split string into list", "\"a,b,c\".split(\",\")", "Beginner"),
      DocFunction("str.join()", "Join list into string", "\",\".join([\"a\", \"b\"])", "Intermediate"),
      DocFunction("str.replace()", "Replace substring", "\"hello\".replace(\"l\", \"x\")", "Beginner"),
      DocFunction("str.find()", "Find substring position", "\"hello\".find(\"ll\")", "Intermediate")
    ]
  }

  /** The documented functions of the List Methods module. */
  function ListMethods(): (fs: seq<DocFunction>)
    ensures |fs| == 6
    ensures NoDuplicates(fs)
  {
    [
      DocFunction("list.append()", "Add element to end", "lst = [1, 2]; lst.append(3)", "Beginner"),
      DocFunction("list.extend()", "Add multiple elements", "lst.extend([4, 5])", "Beginner"),
      DocFunction("list.insert()", "Insert at specific position", "lst.insert(1, \"new\")", "Intermediate"),
      DocFunction("list.remove()", "Remove first occurrence", "lst.remove(\"item\")", "Beginner"),
      DocFunction("list.pop()", "Remove and return element", "lst.pop(0)", "Intermediate"),
      DocFunction("list.sort()", "Sort list in place", "lst.sort(reverse=True)", "Intermediate")
    ]
  }

  /** The Python documentation modules of `collect_python_documentation`. */
  function DocCatalog(): (ds: seq<DocModule>)
    ensures |ds| == 3
    ensures |ds[0].functions| == 8 && |ds[1].functions| == 6 && |ds[2].functions| == 6
    ensures forall d :: 0 <= d < |ds| ==> NoDuplicates(ds[d].functions)
  {
    [
      DocModule("Built-in Functions", "Core Python", BuiltInFunctions()),
      DocModule("String Methods", "Data Types", StringMethods()),
      DocModule("List Methods", "Data Structures", ListMethods())
    ]
  }

  /** The exercise categories of `collect_practice_exercises`. */
  const ExerciseCatalog: seq<ExerciseCategory> :=
    [
      ExerciseCategory(
        "Python Basics", "Beginner",
        [
          Exercise(
            "Calculator Function",
            "Create a function that takes two numbers and an operator (+, -, *, /) and returns the result",
            Some("def calculator(a, b, operator):\n    # Your code here\n    pass"),
            Some("def calculator(a, b, operator):\n    if operator == \"+\":\n        return a + b\n    elif operator == \"-\":\n        return a - b\n    elif operator == \"*\":\n        return a * b\n    elif operator == \"/\":\n        return a / b if b != 0 else \"Cannot divide by zero\""),
            Some(["calculator(5, 3, \"+\") should return 8", "calculator(10, 2, \"/\") should return 5.0"])),
          Exercise(
            "Word Counter",
            "Write a function that counts the number of words in a sentence",
            Some("def count_words(sentence):\n    # Your code here\n    pass"),
            Some("def count_words(sentence):\n    return len(sentence.split())"),
            Some(["count_words(\"Hello world\") should return 2", "count_words(\"Python is awesome\") should return 3"]))
        ]),
      ExerciseCategory(
        "Data Analysis", "Intermediate",
        [
          Exercise(
            "Sales Analysis",
            "Given a list of sales data, calculate total revenue and average sale",
            Some("def analyze_sales(sales_data):\n    # sales_data = [{\"product\": \"A\", \"price\": 100, \"quantity\": 2}, ...]\n    # Return {\"total_revenue\": X, \"average_sale\": Y}\n    pass"),
            Some("def analyze_sales(sales_data):\n    total_revenue = sum(item[\"price\"] * item[\"quantity\"] for item in sales_data)\n    average_sale = total_revenue / len(sales_data) if sales_data else 0\n    return {\"total_revenue\": total_revenue, \"average_sale\": average_sale}"),
            Some(["Should handle empty list", "Should calculate correct totals"]))
        ])
    ]

  /** Two exercise categories, of two and one exercises, every exercise with
      starter code, a solution and two test cases. */
  lemma ExerciseCatalogShape()
    ensures |ExerciseCatalog| == 2
    ensures |ExerciseCatalog[0].exercises| == 2 && |ExerciseCatalog[1].exercises| == 1
    ensures forall c, e :: 0 <= c < |ExerciseCatalog| && 0 <= e < |ExerciseCatalog[c].exercises| ==>
      var x := ExerciseCatalog[c].exercises[e];
      x.starterCode.Some? && x.solution.Some? && x.testCases.Some? && |x.testCases.value| == 2
  {
  }
}
