/**
 * The content of the estimate PDF: the header values with their defaults, the
 * table of step rows with alternating fill, the total shown, and the outcome of
 * writing the file. Page layout, fonts, colours and the number formatting
 * itself belong to the PDF library and are not modelled; a value that the
 * one-decimal format accepts is kept as the number it shows.
 */
module Pdf {
  import opened Wrappers
  import opened Json

  const UNTITLED: string := "Untitled Project"
  const NOT_AVAILABLE: string := "N/A"
  const UNNAMED_TASK: string := "Unnamed task"
  const NO_TASKS: string := "No tasks recorded for this project."

  /** Row backgrounds: white and light grey alternate; the placeholder has its own grey. */
  datatype Fill = White | Grey | PlaceholderGrey

  datatype Row =
    | StepRow(name: Json, hours: real, fill: Fill)
    | PlaceholderRow(text: string, fill: Fill)

  /** What the document shows. */
  datatype Table = Table(title: Json, developer: Json, date: Json, rows: seq<Row>, total: real)

  datatype Document = Document(path: string, table: Table)

  /** The exceptions `generate_pdf` lets escape. */
  datatype GenerateError =
    | NotADictionary        // a step without `get` (AttributeError)
    | NotIterable           // steps that are a number or true (TypeError)
    | CannotFormat(value: Json)  // a value the one-decimal format refuses
    | OutputFailed          // the IOError/OSError of writing, re-raised as RuntimeError

  /** `project.get('steps', []) or []`. */
  function StepsValue(project: map<string, Json>): (steps: Json)
    ensures ("steps" !in project || project["steps"].Falsy()) ==> steps == JArray([])
    ensures "steps" in project && !project["steps"].Falsy() ==> steps == project["steps"]
  {
    var steps := if "steps" in project then project["steps"] else JArray([]);
    if steps.Falsy() then JArray([]) else steps
  }

  /** The number `'{:.1f}'` prints for a value: numbers, and booleans as 1 and 0. */
  function Formattable(v: Json): (r: Option<real>)
    ensures r.Some? <==> v.JNumber? || v.JBool?
  {
    match v
    case JNumber(x) => Some(x)
    case JBool(b) => Some(if b then 1.0 else 0.0)
    case _ => None
  }

  /** `step.get('hours', 0)`. */
  function HoursOf(step: Json): (hours: Json)
    requires step.JObject?
    ensures "hours" in step.members ==> hours == step.members["hours"]
    ensures "hours" !in step.members ==> hours == JNumber(0.0)
  {
    step.Get("hours", JNumber(0.0))
  }

  /** How the generator `sum` over a list of steps ends. */
  datatype SumOutcome = Summed(sum: real) | Caught | Raised

  /**
   * `sum(s.get('hours', 0) for s in steps)` on a list: it stops at the first
   * step that is not a dictionary (AttributeError, not caught) or whose hours
   * are not a number (TypeError, caught).
   */
  function SumList(steps: seq<Json>): (r: SumOutcome)
    ensures r.Summed? <==> forall i :: 0 <= i < |steps| ==> steps[i].JObject? && Formattable(HoursOf(steps[i])).Some?
  {
    if steps == [] then Summed(0.0)
    else if !steps[0].JObject? then Raised
    else match Formattable(HoursOf(steps[0]))
      case None => Caught
      case Some(h) =>
        match SumList(steps[1..])
        case Summed(t) => Summed(h + t)
        case other => other
  }

  /**
   * The total shown: the stored `total` whenever it is there and not null, even
   * when it disagrees with the steps; else the sum of the step hours (0 for a
   * step without hours), and 0 when the sum raises one of the caught errors.
   */
  function TotalValue(project: map<string, Json>): (r: Result<Json, GenerateError>)
    ensures "total" in project && project["total"] != JNull ==> r == Ok(project["total"])
  {
    if "total" in project && project["total"] != JNull then Ok(project["total"])
    else match StepsValue(project)
      case JArray(xs) =>
        (match SumList(xs)
         case Summed(t) => Ok(JNumber(t))
         case Caught => Ok(JNumber(0.0))
         case Raised => Err(NotADictionary))
      case JNumber(_) => Ok(JNumber(0.0))
      case JBool(_) => Ok(JNumber(0.0))
      case _ => Err(NotADictionary)
  }

  /** The fill of the i-th step row: white first, then alternating. */
  function StepFill(i: nat): (fill: Fill)
    ensures fill == Grey <==> i % 2 == 1
    ensures fill != PlaceholderGrey
  {
    if i % 2 == 1 then Grey else White
  }

  /** The rows of a non-empty list of steps, or the error of the first step that cannot be shown. */
  function Rows(steps: seq<Json>): (r: Result<seq<Row>, GenerateError>)
    ensures r.Ok? ==> |r.value| == |steps|
    decreases |steps|
  {
    if steps == [] then Ok([])
    else match Rows(steps[..|steps| - 1])
      case Err(e) => Err(e)
      case Ok(rows) =>
        var step := steps[|steps| - 1];
        if !step.JObject? then Err(NotADictionary)
        else match Formattable(HoursOf(step))
          case None => Err(CannotFormat(HoursOf(step)))
          case Some(h) => Ok(rows + [StepRow(step.Get("name", JString(UNNAMED_TASK)), h, StepFill(|steps| - 1))])
  }

  /**
   * The table body loop: one row per step in input order, the fill flag
   * toggling after each row; the first step that is not a dictionary, or whose
   * hours cannot be formatted, raises.
   */
  method RenderRows(steps: seq<Json>) returns (r: Result<seq<Row>, GenerateError>)
    ensures r == Rows(steps)
  {
    var rows: seq<Row> := [];
    var fill := false;
    var i := 0;
    while i < |steps|
      invariant 0 <= i <= |steps|
      invariant Rows(steps[..i]) == Ok(rows)
      invariant fill == (i % 2 == 1)
    {
      var step := steps[i];
      assert steps[..i + 1][..i] == steps[..i];
      if !step.JObject? {
        PrefixErrorStays(steps, i + 1);
        return Err(NotADictionary);
      }
      var hours := step.Get("hours", JNumber(0.0));
      if !(hours.JNumber? || hours.JBool?) {
        PrefixErrorStays(steps, i + 1);
        return Err(CannotFormat(hours));
      }
      var shown := if hours.JNumber? then hours.number else if hours.truth then 1.0 else 0.0;
      rows := rows + [StepRow(step.Get("name", JString(UNNAMED_TASK)), shown, if fill then Grey else White)];
      fill := !fill;
      i := i + 1;
    }
    assert steps[..i] == steps;
    return Ok(rows);
  }

  /** Once a prefix of the steps fails, every longer list fails with the same error. */
  lemma {:induction false} PrefixErrorStays(steps: seq<Json>, n: nat)
    requires n <= |steps| && Rows(steps[..n]).Err?
    ensures Rows(steps) == Rows(steps[..n])
    decreases |steps| - n
  {
    if n < |steps| {
      assert steps[..n + 1][..n] == steps[..n];
      PrefixErrorStays(steps, n + 1);
    } else {
      assert steps[..n] == steps;
    }
  }

  /** The table body: the placeholder for no steps, else the step rows (or the error of the loop over them). */
  function Body(steps: Json): (r: Result<seq<Row>, GenerateError>)
    ensures steps.Falsy() ==> r == Ok([PlaceholderRow(NO_TASKS, PlaceholderGrey)])
    ensures r.Ok? && !steps.Falsy() ==> steps.JArray? && |r.value| == |steps.items| > 0
    ensures (steps.JNumber? || steps.JBool?) && !steps.Falsy() ==> r == Err(NotIterable)
  {
    if steps.Falsy() then Ok([PlaceholderRow(NO_TASKS, PlaceholderGrey)])
    else match steps
      case JArray(xs) => Rows(xs)
      case JNumber(_) => Err(NotIterable)
      case JBool(_) => Err(NotIterable)
      case _ => Err(NotADictionary)
  }

  /** `os.path.abspath` without normalisation: a relative destination is resolved against `cwd`. */
  function Absolute(cwd: string, destination: string): string {
    if destination == [] then cwd
    else if destination[0] == '/' then destination
    else cwd + "/" + destination
  }

  /**
   * `generate_pdf(project, destination)`: header values with their defaults,
   * the total, the body, the formatted total, then the file; the result is the
   * absolute path of the destination. `outputOk` says whether the write succeeds.
   */
  function Generate(project: map<string, Json>, destination: string, cwd: string, outputOk: bool): (r: Result<Document, GenerateError>)
    ensures r.Ok? ==> outputOk && r.value.path == Absolute(cwd, destination) && |r.value.table.rows| > 0
    ensures r.Ok? ==> r.value.table.title == (if "name" in project then project["name"] else JString(UNTITLED))
  {
    var title := if "name" in project then project["name"] else JString(UNTITLED);
    var developer := if "developer" in project then project["developer"] else JString(NOT_AVAILABLE);
    var date := if "date" in project then project["date"] else JString(NOT_AVAILABLE);
    var steps := StepsValue(project);
    match TotalValue(project)
    case Err(e) => Err(e)
    case Ok(total) =>
      match Body(steps)
      case Err(e) => Err(e)
      case Ok(rows) =>
        match Formattable(total)
        case None => Err(CannotFormat(total))
        case Some(t) =>
          if !outputOk then Err(OutputFailed)
          else Ok(Document(Absolute(cwd, destination), Table(title, developer, date, rows, t)))
  }

  /**
   * The generator as the source runs it, with the row loop as a loop. `Generate`
   * is its reference definition, which the lemmas below describe.
   */
  method GeneratePdf(project: map<string, Json>, destination: string, cwd: string, outputOk: bool)
    returns (r: Result<Document, GenerateError>)
    ensures r == Generate(project, destination, cwd, outputOk)
  {
    var title := if "name" in project then project["name"] else JString(UNTITLED);
    var developer := if "developer" in project then project["developer"] else JString(NOT_AVAILABLE);
    var date := if "date" in project then project["date"] else JString(NOT_AVAILABLE);
    var steps := StepsValue(project);
    var total := TotalValue(project);
    if total.Err? {
      return Err(total.error);
    }
    var rows: Result<seq<Row>, GenerateError>;
    if steps.Falsy() {
      rows := Ok([PlaceholderRow(NO_TASKS, PlaceholderGrey)]);
    } else if steps.JArray? {
      rows := RenderRows(steps.items);
    } else if steps.JNumber? || steps.JBool? {
      rows := Err(NotIterable);
    } else {
      rows := Err(NotADictionary);
    }
    if rows.Err? {
      return Err(rows.error);
    }
    var shown := Formattable(total.value);
    if shown.None? {
      return Err(CannotFormat(total.value));
    }
    if !outputOk {
      return Err(OutputFailed);
    }
    return Ok(Document(Absolute(cwd, destination), Table(title, developer, date, rows.value, shown.value)));
  }

  // ---------------------------------------------------------------------------
  // Properties of the document
  // ---------------------------------------------------------------------------

  /** Row k shows step k's name (or the default), its hours, and grey exactly at odd k. */
  lemma {:induction false} RowsAt(steps: seq<Json>, k: nat)
    requires Rows(steps).Ok? && k < |steps|
    ensures steps[k].JObject? && Formattable(HoursOf(steps[k])).Some?
    ensures Rows(steps).value[k] == StepRow(steps[k].Get("name", JString(UNNAMED_TASK)), Formattable(HoursOf(steps[k])).value, StepFill(k))
    ensures Rows(steps).value[k].fill == Grey <==> k % 2 == 1
    decreases |steps|
  {
    var init := steps[..|steps| - 1];
    if k < |steps| - 1 {
      RowsAt(init, k);
    }
  }

  /** The rows succeed exactly when every step is a dictionary with formattable hours. */
  lemma {:induction false} RowsOkIff(steps: seq<Json>)
    ensures Rows(steps).Ok? <==> forall i :: 0 <= i < |steps| ==> steps[i].JObject? && Formattable(HoursOf(steps[i])).Some?
    decreases |steps|
  {
    if steps != [] {
      var init := steps[..|steps| - 1];
      RowsOkIff(init);
      assert forall i :: 0 <= i < |init| ==> init[i] == steps[i];
    }
  }

  /** The rows' hours add up to the sum `TotalValue` computes. */
  function RowHours(rows: seq<Row>): real {
    if rows == [] then 0.0 else RowHours(rows[..|rows| - 1]) + (if rows[|rows| - 1].StepRow? then rows[|rows| - 1].hours else 0.0)
  }

  lemma {:induction false} SumMatchesRows(steps: seq<Json>)
    requires Rows(steps).Ok?
    ensures SumList(steps) == Summed(RowHours(Rows(steps).value))
    decreases |steps|
  {
    RowsOkIff(steps);
    if steps != [] {
      var init := steps[..|steps| - 1];
      RowsOkIff(init);
      SumMatchesRows(init);
      SumSnoc(init, steps[|steps| - 1]);
      assert init + [steps[|steps| - 1]] == steps;
      var rows := Rows(steps).value;
      assert rows[..|rows| - 1] == Rows(init).value;
    }
  }

  lemma {:induction false} SumSnoc(steps: seq<Json>, last: Json)
    requires SumList(steps).Summed? && last.JObject? && Formattable(HoursOf(last)).Some?
    ensures SumList(steps + [last]) == Summed(SumList(steps).sum + Formattable(HoursOf(last)).value)
    decreases |steps|
  {
    if steps == [] {
      assert [last][1..] == [];
    } else {
      assert (steps + [last])[1..] == steps[1..] + [last];
      SumSnoc(steps[1..], last);
    }
  }

  /** A project without steps gets the single placeholder row. */
  lemma NoStepsPlaceholder(project: map<string, Json>)
    requires StepsValue(project) == JArray([])
    ensures Body(StepsValue(project)) == Ok([PlaceholderRow(NO_TASKS, PlaceholderGrey)])
  {
  }

  /**
   * The 0 that replaces a failed sum never reaches the page: whenever the sum
   * of a generated document's steps is used, it succeeded, and it equals the sum
   * of the hours its rows show.
   */
  lemma SumFallbackNeverShown(project: map<string, Json>, destination: string, cwd: string, outputOk: bool)
    requires !("total" in project && project["total"] != JNull)
    requires Generate(project, destination, cwd, outputOk).Ok?
    ensures var table := Generate(project, destination, cwd, outputOk).value.table;
      table.total == RowHours(table.rows)
  {
    var steps := StepsValue(project);
    if !steps.Falsy() {
      SumMatchesRows(steps.items);
    }
  }

  /** The header defaults and where the total comes from, on every generated document. */
  lemma GeneratedHeader(project: map<string, Json>, destination: string, cwd: string, outputOk: bool)
    requires Generate(project, destination, cwd, outputOk).Ok?
    ensures var d := Generate(project, destination, cwd, outputOk).value;
      && outputOk
      && d.path == Absolute(cwd, destination)
      && d.table.title == (if "name" in project then project["name"] else JString(UNTITLED))
      && d.table.developer == (if "developer" in project then project["developer"] else JString(NOT_AVAILABLE))
      && d.table.date == (if "date" in project then project["date"] else JString(NOT_AVAILABLE))
      && ("total" in project && project["total"] != JNull ==> Formattable(project["total"]) == Some(d.table.total))
      && (StepsValue(project) == JArray([]) <==> d.table.rows == [PlaceholderRow(NO_TASKS, PlaceholderGrey)])
  {
    var steps := StepsValue(project);
    if !steps.Falsy() {
      var rows := Rows(steps.items).value;
      if rows == [PlaceholderRow(NO_TASKS, PlaceholderGrey)] {
        RowsAt(steps.items, 0);
      }
    }
  }

  /** A write failure always surfaces as the runtime error, whatever the failure was. */
  lemma OutputFailure(project: map<string, Json>, destination: string, cwd: string)
    requires Generate(project, destination, cwd, true).Ok?
    ensures Generate(project, destination, cwd, false) == Err(OutputFailed)
  {
  }

  /** The returned path is absolute when the working directory is, and resolving it again changes nothing. */
  lemma AbsoluteIsAbsolute(cwd: string, destination: string)
    requires |cwd| > 0 && cwd[0] == '/'
    ensures var p := Absolute(cwd, destination);
      |p| > 0 && p[0] == '/' && Absolute(cwd, p) == p
    ensures destination == [] ==> Absolute(cwd, destination) == cwd
  {
  }
}
