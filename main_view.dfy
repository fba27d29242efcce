/**
 * The list logic of the estimator's main view: the in-memory project list, the
 * form fields, the step rows and the total label, and the handlers that edit
 * them — save (an upsert keyed by name), load, add and remove a row, recompute
 * the total, collect the form into a project record, and the checks before
 * the PDF save dialog opens.
 *
 * Widgets are reduced to their values. Python's `float(text)` is the parameter
 * `parse` (the empty text never parses), and `str(value)` of a non-string JSON
 * value is the parameter `show`.
 */
module View {
  import opened Wrappers
  import opened Json
  import Store
  import Pdf

  /** One step row: its identity (the row control), the step name field and the hours field. */
  datatype StepRow = StepRow(key: nat, name: Option<string>, hours: string)

  /** What the total label says. */
  datatype TotalLabel =
    | Initial               // "Total: 0h", before any handler ran
    | Formatted(total: real) // "Total: {total:.1f}h"
    | Shown(value: Json)     // "Total: {value}h", a stored total shown as it is

  datatype SaveError = KeyError | WriteFailed
  datatype LoadError = StepNotADictionary | StepsNotIterable
  datatype RemoveError = NotInView

  /** What the "Generate PDF" button does. */
  datatype Click = WarnNoName | WarnNoSteps | OpenSaveDialog(suggestedName: string)

  const SUFFIX: string := "_estimate.pdf"

  /** `float(text)`: the empty text raises ValueError; other texts are decided by `parse`. */
  function Float(parse: string -> Option<real>, text: string): Option<real> {
    if text == "" then None else parse(text)
  }

  /** `str(value)`: a string is itself. */
  function Str(show: Json -> string, v: Json): string {
    if v.JString? then v.str else show(v)
  }

  // ---------------------------------------------------------------------------
  // Totals and the collected record
  // ---------------------------------------------------------------------------

  /** What `update_total` adds for one row: `float(text or 0)`, and 0 when that raises. */
  function LabelHours(parse: string -> Option<real>, row: StepRow): real {
    if row.hours == "" then 0.0 else parse(row.hours).GetOr(0.0)
  }

  function LabelTotal(parse: string -> Option<real>, rows: seq<StepRow>): (total: real)
    ensures (forall i :: 0 <= i < |rows| ==> rows[i].hours == "" || parse(rows[i].hours).None?) ==> total == 0.0
    ensures (forall i :: 0 <= i < |rows| ==> LabelHours(parse, rows[i]) >= 0.0) ==> total >= 0.0
    decreases |rows|
  {
    if rows == [] then 0.0 else LabelTotal(parse, rows[..|rows| - 1]) + LabelHours(parse, rows[|rows| - 1])
  }

  /** The hours `collect_project_data` records for a row: `float(text)`, and 0 on ValueError. */
  function RowHours(parse: string -> Option<real>, row: StepRow): real {
    Float(parse, row.hours).GetOr(0.0)
  }

  function CollectedTotal(parse: string -> Option<real>, rows: seq<StepRow>): real
    decreases |rows|
  {
    if rows == [] then 0.0 else CollectedTotal(parse, rows[..|rows| - 1]) + RowHours(parse, rows[|rows| - 1])
  }

  /** The collected total is 0 when no row's hours parse, and never negative when no row's hours are. */
  lemma {:induction false} CollectedTotalBounds(parse: string -> Option<real>, rows: seq<StepRow>)
    ensures (forall i :: 0 <= i < |rows| ==> Float(parse, rows[i].hours).None?) ==> CollectedTotal(parse, rows) == 0.0
    ensures (forall i :: 0 <= i < |rows| ==> RowHours(parse, rows[i]) >= 0.0) ==> CollectedTotal(parse, rows) >= 0.0
    decreases |rows|
  {
    if rows != [] {
      var init := rows[..|rows| - 1];
      CollectedTotalBounds(parse, init);
      assert forall i :: 0 <= i < |init| ==> init[i] == rows[i];
    }
  }

  /** The step name field's value as stored: an empty field control holds None. */
  function NameValue(name: Option<string>): Json {
    if name.Some? then JString(name.value) else JNull
  }

  /** The record `{name, hours}` collected for one row. */
  function StepRecord(parse: string -> Option<real>, row: StepRow): (step: Json)
    ensures step.JObject? && step.members.Keys == {"name", "hours"}
  {
    JObject(map["name" := NameValue(row.name), "hours" := JNumber(RowHours(parse, row))])
  }

  function StepRecords(parse: string -> Option<real>, rows: seq<StepRow>): (steps: seq<Json>)
    ensures |steps| == |rows|
    ensures forall i :: 0 <= i < |rows| ==> steps[i] == StepRecord(parse, rows[i])
  {
    seq(|rows|, i requires 0 <= i < |rows| => StepRecord(parse, rows[i]))
  }

  /** The project record `collect_project_data` builds from the form. */
  function Collected(parse: string -> Option<real>, name: string, developer: string, today: string, rows: seq<StepRow>): map<string, Json> {
    map["name" := JString(name),
        "developer" := JString(if developer != "" then developer else "N/A"),
        "date" := JString(today),
        "steps" := JArray(StepRecords(parse, rows)),
        "total" := JNumber(CollectedTotal(parse, rows))]
  }

  // ---------------------------------------------------------------------------
  // The project list
  // ---------------------------------------------------------------------------

  /**
   * The generator `next((p for p in projects if p["name"] == name), None)`:
   * the first project with that name, None when there is none, and KeyError when
   * a project without a name is reached first.
   */
  function FindByName(projects: seq<map<string, Json>>, name: Json): (r: Result<Option<nat>, SaveError>)
    ensures r.Ok? && r.value.Some? ==>
      r.value.value < |projects| && "name" in projects[r.value.value] && projects[r.value.value]["name"] == name
    ensures r.Ok? ==> forall j :: 0 <= j < (if r.value.Some? then r.value.value else |projects|) ==>
                        "name" in projects[j] && projects[j]["name"] != name
    ensures r.Err? ==> r.error == KeyError && exists j :: 0 <= j < |projects| && "name" !in projects[j]
  {
    if projects == [] then Ok(None)
    else if "name" !in projects[0] then Err(KeyError)
    else if projects[0]["name"] == name then Ok(Some(0))
    else match FindByName(projects[1..], name)
      case Err(e) => Err(e)
      case Ok(None) => Ok(None)
      case Ok(Some(i)) => Ok(Some(i + 1))
  }

  /** `save`'s list update: replace the first project with the same name, or append. */
  function Upsert(projects: seq<map<string, Json>>, project: map<string, Json>): (r: Result<seq<map<string, Json>>, SaveError>)
    requires "name" in project
    ensures r.Err? <==> FindByName(projects, project["name"]).Err?
    ensures r.Err? ==> r.error == KeyError
    ensures r.Ok? ==> |projects| <= |r.value| <= |projects| + 1 && project in r.value
    ensures r.Ok? && |r.value| == |projects| + 1 ==> r.value[..|projects|] == projects
  {
    match FindByName(projects, project["name"])
    case Err(e) => Err(e)
    case Ok(None) => Ok(projects + [project])
    case Ok(Some(i)) =>
      var updated := projects[i := project];
      assert updated[i] == project;
      Ok(updated)
  }

  /** The list `save_projects` writes: each project as a JSON object, in order. */
  function ToJson(projects: seq<map<string, Json>>): (doc: Json)
    ensures doc.JArray? && |doc.items| == |projects|
  {
    JArray(seq(|projects|, i requires 0 <= i < |projects| => JObject(projects[i])))
  }

  /**
   * `manager.load_projects() or []` followed by the dropdown: a falsy value is
   * the empty list; otherwise every element must be a dictionary, since the
   * dropdown reads each one's name with `get`.
   */
  function InitialProjects(loaded: Json): (r: Option<seq<map<string, Json>>>)
    ensures loaded.Falsy() ==> r == Some([])
    ensures loaded.JArray? && (forall i :: 0 <= i < |loaded.items| ==> loaded.items[i].JObject?) ==>
              r.Some? && |r.value| == |loaded.items|
              && forall i :: 0 <= i < |loaded.items| ==> r.value[i] == loaded.items[i].members
    ensures !loaded.Falsy() && !(loaded.JArray? && forall i :: 0 <= i < |loaded.items| ==> loaded.items[i].JObject?) ==>
              r == None
  {
    if loaded.Falsy() then Some([])
    else if loaded.JArray? && forall i :: 0 <= i < |loaded.items| ==> loaded.items[i].JObject?
    then Some(seq(|loaded.items|, i requires 0 <= i < |loaded.items| && loaded.items[i].JObject? => loaded.items[i].members))
    else None
  }

  /** The steps `load_project` iterates over: `p.get("steps", [])` must iterate to dictionaries. */
  function StepsToLoad(p: map<string, Json>): (r: Result<seq<Json>, LoadError>)
    ensures "steps" !in p ==> r == Ok([])
    ensures "steps" in p && p["steps"].JArray? ==> r == Ok(p["steps"].items)
    ensures r == Err(StepsNotIterable) <==> "steps" in p && (p["steps"].JNumber? || p["steps"].JBool? || p["steps"].JNull?)
    ensures r == Err(StepNotADictionary) <==> "steps" in p && !p["steps"].Falsy() && (p["steps"].JString? || p["steps"].JObject?)
  {
    var steps := if "steps" in p then p["steps"] else JArray([]);
    match steps
    case JArray(xs) => Ok(xs)
    case JString(t) => if t == "" then Ok([]) else Err(StepNotADictionary)
    case JObject(m) => if m == map[] then Ok([]) else Err(StepNotADictionary)
    case _ => Err(StepsNotIterable)
  }

  /** The row `create_step_row(st.get("name"), st.get("hours", 0))` builds. */
  function LoadedRow(show: Json -> string, key: nat, st: Json): (row: StepRow)
    requires st.JObject?
    ensures row.key == key
    ensures row.name.None? <==> "name" !in st.members || st.members["name"] == JNull
    ensures "name" in st.members && st.members["name"].JString? ==> row.name == Some(st.members["name"].str)
    ensures "hours" !in st.members ==> row.hours == show(JNumber(0.0))
    ensures "hours" in st.members && st.members["hours"].JString? ==> row.hours == st.members["hours"].str
  {
    var name := st.Get("name", JNull);
    StepRow(key, if name.JNull? then None else Some(Str(show, name)), Str(show, st.Get("hours", JNumber(0.0))))
  }

  /** The rows built from `steps` with keys from `key0` on: as many as succeed before the first non-dictionary. */
  function LoadedRows(show: Json -> string, key0: nat, steps: seq<Json>): (rows: seq<StepRow>)
    ensures |rows| <= |steps|
    ensures |rows| == |steps| <==> forall i :: 0 <= i < |steps| ==> steps[i].JObject?
    ensures forall j :: 0 <= j < |rows| ==> steps[j].JObject? && rows[j] == LoadedRow(show, key0 + j, steps[j])
    decreases |steps|
  {
    if steps == [] then []
    else
      var init := LoadedRows(show, key0, steps[..|steps| - 1]);
      if |init| == |steps| - 1 && steps[|steps| - 1].JObject?
      then init + [LoadedRow(show, key0 + |steps| - 1, steps[|steps| - 1])]
      else init
  }

  /** The first index of a project named `selected`, if any (`p.get("name") == selected`). */
  function FirstNamed(projects: seq<map<string, Json>>, selected: string): (r: Option<nat>)
    ensures r.Some? ==> r.value < |projects| && "name" in projects[r.value] && projects[r.value]["name"] == JString(selected)
    ensures forall j :: 0 <= j < (if r.Some? then r.value else |projects|) ==>
              !("name" in projects[j] && projects[j]["name"] == JString(selected))
  {
    if projects == [] then None
    else if "name" in projects[0] && projects[0]["name"] == JString(selected) then Some(0)
    else match FirstNamed(projects[1..], selected)
      case None => None
      case Some(i) => Some(i + 1)
  }

  /** The rows with the one whose control is `key` taken out. */
  function Without(rows: seq<StepRow>, key: nat): seq<StepRow>
    decreases |rows|
  {
    if rows == [] then []
    else if rows[0].key == key then rows[1..]
    else [rows[0]] + Without(rows[1..], key)
  }

  /** Row controls are distinct objects, all made before the one numbered `nextKey`. */
  predicate KeysOk(rows: seq<StepRow>, nextKey: nat) {
    && (forall i :: 0 <= i < |rows| ==> rows[i].key < nextKey)
    && (forall i, j :: 0 <= i < j < |rows| ==> rows[i].key != rows[j].key)
  }

  lemma RemoveKeepsKeys(rows: seq<StepRow>, nextKey: nat, i: nat)
    requires KeysOk(rows, nextKey) && i < |rows|
    ensures KeysOk(rows[..i] + rows[i + 1..], nextKey)
  {
    var r := rows[..i] + rows[i + 1..];
    forall a | 0 <= a < |r| ensures r[a].key < nextKey {
      assert r[a] == rows[if a < i then a else a + 1];
    }
    forall a, b | 0 <= a < b < |r| ensures r[a].key != r[b].key {
      var a' := if a < i then a else a + 1;
      var b' := if b < i then b else b + 1;
      assert r[a] == rows[a'] && r[b] == rows[b'];
    }
  }

  /** Whether some row's control is `key`. */
  predicate HasKey(rows: seq<StepRow>, key: nat) {
    exists i :: 0 <= i < |rows| && rows[i].key == key
  }

  /** Python's `str.isspace` for one character. */
  predicate IsSpace(c: char) {
    || ('\U{9}' <= c <= '\U{D}') || ('\U{1C}' <= c <= '\U{20}') || c == '\U{85}' || c == '\U{A0}'
    || c == '\U{1680}' || ('\U{2000}' <= c <= '\U{200A}') || c == '\U{2028}' || c == '\U{2029}'
    || c == '\U{202F}' || c == '\U{205F}' || c == '\U{3000}'
  }

  /** `not name or not name.strip()`. */
  predicate Blank(name: string) {
    forall i :: 0 <= i < |name| ==> IsSpace(name[i])
  }

  /** `name.replace(' ', '_')`. */
  function ReplaceSpaces(name: string): (r: string)
    ensures |r| == |name|
    ensures forall i :: 0 <= i < |name| ==> r[i] == if name[i] == ' ' then '_' else name[i]
  {
    if name == [] then [] else [if name[0] == ' ' then '_' else name[0]] + ReplaceSpaces(name[1..])
  }

  function SuggestedFilename(name: string): string {
    ReplaceSpaces(name) + SUFFIX
  }

  /** The validation of `generate_pdf_click`, in order: the name, then the steps. */
  function ClickOutcome(name: string, rowCount: nat): (c: Click)
    ensures c == WarnNoName <==> Blank(name)
    ensures c == WarnNoSteps <==> !Blank(name) && rowCount == 0
  {
    if Blank(name) then WarnNoName
    else if rowCount == 0 then WarnNoSteps
    else OpenSaveDialog(SuggestedFilename(name))
  }

  // ---------------------------------------------------------------------------
  // The view
  // ---------------------------------------------------------------------------

  class EstimatorView {
    var projects: seq<map<string, Json>>
    var nameField: string
    var developerField: string
    var rows: seq<StepRow>
    var nextKey: nat
    var totalLabel: TotalLabel
    const manager: Store.ProjectManager
    const parse: string -> Option<real>
    const show: Json -> string

    /** Row controls are distinct objects, all made before the next one. */
    ghost predicate Valid()
      reads this
    {
      KeysOk(rows, nextKey)
    }

    constructor Build(manager: Store.ProjectManager, projects: seq<map<string, Json>>,
                      parse: string -> Option<real>, show: Json -> string)
      ensures Valid()
      ensures this.manager == manager && this.projects == projects && this.parse == parse && this.show == show
      ensures nameField == "" && developerField == "" && rows == [] && totalLabel == Initial
    {
      this.manager := manager;
      this.projects := projects;
      this.parse := parse;
      this.show := show;
      nameField := "";
      developerField := "";
      rows := [];
      nextKey := 0;
      totalLabel := Initial;
    }

    /** `main_view(page, manager)`: load the projects; the dropdown fails on one that is not a dictionary. */
    static method Open(manager: Store.ProjectManager, parse: string -> Option<real>, show: Json -> string)
      returns (r: Option<EstimatorView>)
      ensures var initial := InitialProjects(Store.Loaded(manager.file.content, manager.file.canRead));
        && (r.Some? <==> initial.Some?)
        && (r.Some? ==> fresh(r.value) && r.value.Valid() && r.value.projects == initial.value
                        && r.value.manager == manager && r.value.parse == parse && r.value.show == show
                        && r.value.rows == [] && r.value.totalLabel == Initial)
    {
      var loaded := manager.LoadProjects();
      var initial := InitialProjects(loaded);
      if initial.None? {
        return None;
      }
      var view := new EstimatorView.Build(manager, initial.value, parse, show);
      return Some(view);
    }

    /** `update_total`: the label shows the sum of the hours fields, an empty or unparsable one counting 0. */
    method UpdateTotal()
      modifies this`totalLabel
      ensures totalLabel == Formatted(LabelTotal(parse, rows))
    {
      var total := 0.0;
      for i := 0 to |rows|
        invariant total == LabelTotal(parse, rows[..i])
      {
        assert rows[..i + 1][..i] == rows[..i];
        var text := rows[i].hours;
        if text == "" {
          total := total + 0.0;
        } else {
          var h := parse(text);
          if h.Some? {
            total := total + h.value;
          }
        }
      }
      assert rows[..|rows|] == rows;
      totalLabel := Formatted(total);
    }

    /** `collect_project_data`: one `{name, hours}` per row in row order, their total, and the form fields. */
    method CollectProjectData(today: string) returns (project: map<string, Json>)
      ensures project == Collected(parse, nameField, developerField, today, rows)
    {
      var data, total := CollectSteps();
      project := map["name" := JString(nameField),
                     "developer" := JString(if developerField != "" then developerField else "N/A"),
                     "date" := JString(today),
                     "steps" := JArray(data),
                     "total" := JNumber(total)];
    }

    /** The loop of `collect_project_data` over the rows: the step records and the sum of their hours. */
    method CollectSteps() returns (data: seq<Json>, total: real)
      ensures data == StepRecords(parse, rows) && total == CollectedTotal(parse, rows)
    {
      data := [];
      total := 0.0;
      for i := 0 to |rows|
        invariant data == StepRecords(parse, rows[..i])
        invariant total == CollectedTotal(parse, rows[..i])
      {
        assert rows[..i + 1][..i] == rows[..i];
        var hours := Float(parse, rows[i].hours);
        var h := if hours.Some? then hours.value else 0.0;
        data := data + [JObject(map["name" := NameValue(rows[i].name), "hours" := JNumber(h)])];
        total := total + h;
      }
      assert rows[..|rows|] == rows;
    }

    /** `add_step`: one empty row at the end. */
    method AddStep()
      requires Valid()
      modifies this`rows, this`nextKey
      ensures Valid()
      ensures rows == old(rows) + [StepRow(old(nextKey), Some(""), "")] && nextKey == old(nextKey) + 1
    {
      rows := rows + [StepRow(nextKey, Some(""), "")];
      nextKey := nextKey + 1;
    }

    /** A row's delete button: `steps.controls.remove(row)`, then `update_total`. */
    method RemoveStep(key: nat) returns (r: Result<(), RemoveError>)
      requires Valid()
      modifies this`rows, this`totalLabel
      ensures Valid()
      ensures r.Ok? <==> HasKey(old(rows), key)
      ensures rows == Without(old(rows), key)
      ensures totalLabel == if r.Ok? then Formatted(LabelTotal(parse, rows)) else old(totalLabel)
    {
      var i := FindRow(key);
      if i == |rows| {
        return Err(NotInView);
      }
      RemoveKeepsKeys(rows, nextKey, i);
      rows := rows[..i] + rows[i + 1..];
      UpdateTotal();
      return Ok(());
    }

    /** The search `list.remove` does: the position of the row whose control is `key`, or the end. */
    method FindRow(key: nat) returns (i: nat)
      ensures i <= |rows|
      ensures i == |rows| <==> !HasKey(rows, key)
      ensures Without(rows, key) == if i < |rows| then rows[..i] + rows[i + 1..] else rows
    {
      WithoutIsSubsequence(rows, key);
      i := 0;
      while i < |rows| && rows[i].key != key
        invariant 0 <= i <= |rows|
        invariant forall j :: 0 <= j < i ==> rows[j].key != key
        invariant Without(rows, key) == rows[..i] + Without(rows[i..], key)
      {
        WithoutSkip(rows, key, i);
        i := i + 1;
      }
      if i == |rows| {
        assert rows[i..] == [];
        assert rows[..i] == rows;
      } else {
        assert rows[i..][1..] == rows[i + 1..];
      }
    }

    /**
     * `load_project(selected)`: the first project named `selected` fills the form;
     * its rows are rebuilt in stored order and the label shows its stored total
     * (0 when it has none). A step that is not a dictionary stops the rebuild,
     * leaving the fields set and the rows built so far. Nothing changes when no
     * project has that name.
     */
    method LoadProject(selected: string) returns (r: Result<(), LoadError>)
      requires Valid()
      modifies this`nameField, this`developerField, this`rows, this`nextKey, this`totalLabel
      ensures Valid()
      ensures var i := FirstNamed(projects, selected);
        if i.None? then
          r.Ok? && nameField == old(nameField) && developerField == old(developerField)
          && rows == old(rows) && nextKey == old(nextKey) && totalLabel == old(totalLabel)
        else
          var p := projects[i.value];
          var steps := StepsToLoad(p);
          && nameField == selected
          && developerField == Str(show, JObject(p).Get("developer", JString("")))
          && (steps.Err? ==> r == Err(steps.error) && rows == [])
          && (steps.Ok? ==> rows == LoadedRows(show, old(nextKey), steps.value)
                            && (r.Ok? <==> |rows| == |steps.value|)
                            && (r.Err? ==> r == Err(StepNotADictionary)))
          && (r.Ok? ==> totalLabel == Shown(JObject(p).Get("total", JNumber(0.0))))
          && (r.Err? ==> totalLabel == old(totalLabel))
    {
      var k := FindSelected(selected);
      if k.None? {
        return Ok(());
      }
      var p := projects[k.value];
      nameField := Str(show, p["name"]);
      developerField := Str(show, JObject(p).Get("developer", JString("")));
      rows := [];
      var steps := StepsToLoad(p);
      if steps.Err? {
        return Err(steps.error);
      }
      var complete := RebuildRows(steps.value);
      if !complete {
        return Err(StepNotADictionary);
      }
      totalLabel := Shown(JObject(p).Get("total", JNumber(0.0)));
      return Ok(());
    }

    /** The loop over `projects` of `load_project`, up to its `break`. */
    method FindSelected(selected: string) returns (k: Option<nat>)
      ensures k == FirstNamed(projects, selected)
    {
      var i := 0;
      while i < |projects| && !("name" in projects[i] && projects[i]["name"] == JString(selected))
        invariant 0 <= i <= |projects|
        invariant forall j :: 0 <= j < i ==> !("name" in projects[j] && projects[j]["name"] == JString(selected))
      {
        i := i + 1;
      }
      FirstNamedIs(projects, selected, i);
      k := if i < |projects| then Some(i) else None;
    }

    /** The loop over a project's steps of `load_project`, appending one new row per step. */
    method RebuildRows(xs: seq<Json>) returns (complete: bool)
      requires rows == []
      modifies this`rows, this`nextKey
      ensures Valid()
      ensures rows == LoadedRows(show, old(nextKey), xs)
      ensures complete <==> |rows| == |xs|
    {
      ghost var key0 := nextKey;
      for i := 0 to |xs|
        invariant rows == LoadedRows(show, key0, xs[..i]) && |rows| == i
        invariant nextKey == key0 + i
        invariant forall j :: 0 <= j < |rows| ==> rows[j].key == key0 + j
      {
        assert xs[..i + 1][..i] == xs[..i];
        if !xs[i].JObject? {
          LoadedRowsStop(show, key0, xs, i);
          return false;
        }
        rows := rows + [LoadedRow(show, nextKey, xs[i])];
        nextKey := nextKey + 1;
      }
      assert xs[..|xs|] == xs;
      return true;
    }

    /**
     * `save`: collect the form, upsert it by name, write the whole list, and
     * show the saved total. A stored project without a name raises before any
     * change; a failed write raises after the list was updated in memory.
     */
    method Save(today: string) returns (r: Result<(), SaveError>)
      modifies this`projects, this`totalLabel, manager.file`content
      ensures var project := Collected(parse, nameField, developerField, today, rows);
        var updated := Upsert(old(projects), project);
        var writable := manager.file.directoryExists && manager.file.canWrite;
        && (updated.Err? ==> r == Err(KeyError) && projects == old(projects)
                             && manager.file.content == old(manager.file.content) && totalLabel == old(totalLabel))
        && (updated.Ok? ==> projects == updated.value
                            && (r.Ok? <==> writable)
                            && (r.Err? ==> r == Err(WriteFailed) && totalLabel == old(totalLabel)
                                           && manager.file.content == old(manager.file.content))
                            && (r.Ok? ==> manager.file.content == Store.Holding(ToJson(projects))
                                          && totalLabel == Formatted(CollectedTotal(parse, rows))))
    {
      var project := CollectProjectData(today);
      var ps := projects;
      var found: Option<nat> := None;
      var i := 0;
      while i < |ps| && found.None?
        invariant 0 <= i <= |ps|
        invariant projects == ps && totalLabel == old(totalLabel) && manager.file.content == old(manager.file.content)
        invariant FindByName(ps, project["name"]) == FindFrom(ps, project["name"], i, found)
        invariant found.Some? ==> found.value < |ps|
      {
        if "name" !in ps[i] {
          FindFromMissing(ps, project["name"], i);
          return Err(KeyError);
        }
        FindFromStep(ps, project["name"], i);
        if ps[i]["name"] == project["name"] {
          found := Some(i);
        }
        i := i + 1;
      }
      FindFromEnd(ps, project["name"], i, found);
      if found.Some? {
        projects := ps[found.value := project];
      } else {
        projects := ps + [project];
      }
      var saved := manager.SaveProjects(ToJson(projects));
      if saved.Err? {
        return Err(WriteFailed);
      }
      totalLabel := Formatted(project["total"].number);
      return Ok(());
    }

    /** `generate_pdf_click`: warn about a blank name, then about no rows, else offer the filename. */
    method GeneratePdfClick() returns (c: Click)
      ensures c == ClickOutcome(nameField, |rows|)
    {
      var blank := true;
      for i := 0 to |nameField|
        invariant blank == forall j :: 0 <= j < i ==> IsSpace(nameField[j])
      {
        blank := blank && IsSpace(nameField[i]);
      }
      if blank {
        return WarnNoName;
      }
      if rows == [] {
        return WarnNoSteps;
      }
      return OpenSaveDialog(ReplaceSpaces(nameField) + SUFFIX);
    }

    /** `generate_pdf_with_path`: the PDF of the collected form, or the error shown instead. */
    method GeneratePdfWithPath(savePath: string, today: string, cwd: string, outputOk: bool)
      returns (r: Result<Pdf.Document, Pdf.GenerateError>)
      ensures r == Pdf.Generate(Collected(parse, nameField, developerField, today, rows), savePath, cwd, outputOk)
    {
      var project := CollectProjectData(today);
      r := Pdf.GeneratePdf(project, savePath, cwd, outputOk);
    }
  }

  // ---------------------------------------------------------------------------
  // Proof helpers for the loops
  // ---------------------------------------------------------------------------

  /** The search of `save` after the first `i` projects, with `found` its result so far. */
  function FindFrom(projects: seq<map<string, Json>>, name: Json, i: nat, found: Option<nat>): Result<Option<nat>, SaveError>
    requires i <= |projects|
  {
    if found.Some? then Ok(found)
    else match FindByName(projects[i..], name)
      case Err(e) => Err(e)
      case Ok(None) => Ok(None)
      case Ok(Some(j)) => Ok(Some(i + j))
  }

  lemma FindFromStep(projects: seq<map<string, Json>>, name: Json, i: nat)
    requires i < |projects| && "name" in projects[i]
    ensures FindFrom(projects, name, i, None)
         == FindFrom(projects, name, i + 1, if projects[i]["name"] == name then Some(i) else None)
  {
    assert projects[i..][1..] == projects[i + 1..];
  }

  lemma FindFromMissing(projects: seq<map<string, Json>>, name: Json, i: nat)
    requires i < |projects| && "name" !in projects[i]
    ensures FindFrom(projects, name, i, None) == Err(KeyError)
  {
  }

  lemma FindFromEnd(projects: seq<map<string, Json>>, name: Json, i: nat, found: Option<nat>)
    requires i <= |projects| && (i == |projects| || found.Some?)
    ensures FindFrom(projects, name, i, found) == Ok(found)
  {
    if found.None? {
      assert projects[i..] == [];
    }
  }

  lemma FirstNamedIs(projects: seq<map<string, Json>>, selected: string, k: nat)
    requires k <= |projects|
    requires forall j :: 0 <= j < k ==> !("name" in projects[j] && projects[j]["name"] == JString(selected))
    requires k < |projects| ==> "name" in projects[k] && projects[k]["name"] == JString(selected)
    ensures FirstNamed(projects, selected) == if k < |projects| then Some(k) else None
  {
  }

  lemma {:induction false} LoadedRowsStop(show: Json -> string, key0: nat, steps: seq<Json>, i: nat)
    requires i < |steps| && !steps[i].JObject? && |LoadedRows(show, key0, steps[..i])| == i
    ensures LoadedRows(show, key0, steps) == LoadedRows(show, key0, steps[..i])
    decreases |steps| - i
  {
    LoadedRowsShort(show, key0, steps, i + 1);
    assert steps[..i + 1][..i] == steps[..i];
  }

  /** Once fewer rows than steps were built, later steps add nothing. */
  lemma {:induction false} LoadedRowsShort(show: Json -> string, key0: nat, steps: seq<Json>, n: nat)
    requires n <= |steps| && |LoadedRows(show, key0, steps[..n])| < n
    ensures LoadedRows(show, key0, steps) == LoadedRows(show, key0, steps[..n])
    decreases |steps| - n
  {
    if n < |steps| {
      assert steps[..n + 1][..n] == steps[..n];
      LoadedRowsShort(show, key0, steps, n + 1);
    } else {
      assert steps[..n] == steps;
    }
  }

  lemma WithoutSkip(rows: seq<StepRow>, key: nat, i: nat)
    requires i < |rows| && rows[i].key != key
    ensures rows[..i] + Without(rows[i..], key) == rows[..i + 1] + Without(rows[i + 1..], key)
  {
    assert rows[i..][1..] == rows[i + 1..];
    assert rows[..i + 1] == rows[..i] + [rows[i]];
  }

  lemma {:induction false} WithoutIsSubsequence(rows: seq<StepRow>, key: nat)
    ensures rows[..0] + Without(rows[0..], key) == Without(rows, key)
  {
    assert rows[..0] == [] && rows[0..] == rows;
  }
}

module ViewProperties {
  import opened Wrappers
  import opened Json
  import Store
  import Pdf
  import opened View

  /** `update_total` and `collect_project_data` arrive at the same total for the same rows. */
  lemma {:induction false} TotalsAgree(parse: string -> Option<real>, rows: seq<StepRow>)
    ensures LabelTotal(parse, rows) == CollectedTotal(parse, rows)
    decreases |rows|
  {
    if rows != [] {
      TotalsAgree(parse, rows[..|rows| - 1]);
      assert LabelHours(parse, rows[|rows| - 1]) == RowHours(parse, rows[|rows| - 1]);
    }
  }

  /**
   * The collected record has exactly five keys; the developer is "N/A" for an
   * empty field; one step record per row, in row order; and the total.
   */
  lemma CollectedFields(parse: string -> Option<real>, name: string, developer: string, today: string, rows: seq<StepRow>)
    ensures var project := Collected(parse, name, developer, today, rows);
      && project.Keys == {"name", "developer", "date", "steps", "total"}
      && project["name"] == JString(name) && project["date"] == JString(today)
      && project["developer"] == JString(if developer == "" then "N/A" else developer)
      && project["steps"].JArray? && |project["steps"].items| == |rows|
      && (forall i :: 0 <= i < |rows| ==> project["steps"].items[i] == StepRecord(parse, rows[i]))
      && project["total"] == JNumber(CollectedTotal(parse, rows))
  {
  }

  /** The collected total is the sum of the collected step hours. */
  lemma {:induction false} CollectedSumsToTotal(parse: string -> Option<real>, rows: seq<StepRow>)
    ensures Pdf.SumList(StepRecords(parse, rows)) == Pdf.Summed(CollectedTotal(parse, rows))
    decreases |rows|
  {
    if rows != [] {
      var init := rows[..|rows| - 1];
      var last := rows[|rows| - 1];
      CollectedSumsToTotal(parse, init);
      assert StepRecords(parse, rows) == StepRecords(parse, init) + [StepRecord(parse, last)];
      Pdf.SumSnoc(StepRecords(parse, init), StepRecord(parse, last));
    }
  }

  /**
   * The PDF of a collected form always renders when the file can be written:
   * one row per form row (the placeholder for none), and the stored total —
   * which is the sum of the rows' hours.
   */
  lemma CollectedRenders(parse: string -> Option<real>, name: string, developer: string, today: string,
                         rows: seq<StepRow>, destination: string, cwd: string)
    ensures var r := Pdf.Generate(Collected(parse, name, developer, today, rows), destination, cwd, true);
      && r.Ok?
      && r.value.table.title == JString(name)
      && r.value.table.total == CollectedTotal(parse, rows)
      && |r.value.table.rows| == (if rows == [] then 1 else |rows|)
      && (rows != [] ==> r.value.table.total == Pdf.RowHours(r.value.table.rows))
  {
    var project := Collected(parse, name, developer, today, rows);
    var steps := StepRecords(parse, rows);
    assert project["steps"] == JArray(steps) && project["total"] == JNumber(CollectedTotal(parse, rows));
    CollectedBody(parse, rows);
  }

  /** The table body of a collected step list: renderable, one row per form row, summing to the collected total. */
  lemma CollectedBody(parse: string -> Option<real>, rows: seq<StepRow>)
    ensures var b := Pdf.Body(JArray(StepRecords(parse, rows)));
      && b.Ok?
      && |b.value| == (if rows == [] then 1 else |rows|)
      && (rows != [] ==> CollectedTotal(parse, rows) == Pdf.RowHours(b.value))
  {
    var steps := StepRecords(parse, rows);
    Pdf.RowsOkIff(steps);
    if rows != [] {
      assert steps[0] in steps;
      Pdf.SumMatchesRows(steps);
      CollectedSumsToTotal(parse, rows);
    }
  }

  /** Reloading a collected step list restores every row's name and shows its recorded hours. */
  lemma {:induction false} ReloadRows(parse: string -> Option<real>, show: Json -> string, key0: nat, rows: seq<StepRow>)
    ensures var back := LoadedRows(show, key0, StepRecords(parse, rows));
      && |back| == |rows|
      && forall i :: 0 <= i < |rows| ==>
           back[i].name == rows[i].name && back[i].key == key0 + i && back[i].hours == show(JNumber(RowHours(parse, rows[i])))
    decreases |rows|
  {
    if rows != [] {
      var init := rows[..|rows| - 1];
      ReloadRows(parse, show, key0, init);
      var steps := StepRecords(parse, rows);
      assert steps[..|steps| - 1] == StepRecords(parse, init);
    }
  }

  /** The upsert replaces the first project with the same name in place, or appends; nothing else changes. */
  lemma UpsertShape(projects: seq<map<string, Json>>, project: map<string, Json>)
    requires "name" in project
    ensures var r := Upsert(projects, project);
      && (r.Err? <==> FindByName(projects, project["name"]).Err?)
      && (r.Ok? ==> match FindByName(projects, project["name"]).value
           case Some(i) =>
             && |r.value| == |projects| && r.value[i] == project
             && (forall j :: 0 <= j < |projects| && j != i ==> r.value[j] == projects[j])
             && (forall j :: 0 <= j < i ==> projects[j]["name"] != project["name"])
           case None =>
             && |r.value| == |projects| + 1 && r.value[|projects|] == project
             && (forall j :: 0 <= j < |projects| ==> r.value[j] == projects[j] && projects[j]["name"] != project["name"]))
  {
  }

  /** Saving the same form twice leaves the list as saving it once. */
  lemma UpsertIdempotent(projects: seq<map<string, Json>>, project: map<string, Json>)
    requires "name" in project && Upsert(projects, project).Ok?
    ensures Upsert(Upsert(projects, project).value, project) == Upsert(projects, project)
  {
    var once := Upsert(projects, project).value;
    var f := FindByName(projects, project["name"]).value;
    var i := if f.Some? then f.value else |projects|;
    assert forall j :: 0 <= j < i ==> once[j] == projects[j];
    FindByNameAt(once, project["name"], i);
    assert once[i] == project;
    assert once[i := project] == once;
  }

  /** A search that passes named non-matches and reaches a match at i finds i. */
  lemma {:induction false} FindByNameAt(projects: seq<map<string, Json>>, name: Json, i: nat)
    requires i < |projects| && "name" in projects[i] && projects[i]["name"] == name
    requires forall j :: 0 <= j < i ==> "name" in projects[j] && projects[j]["name"] != name
    ensures FindByName(projects, name) == Ok(Some(i))
    decreases i
  {
    if i > 0 {
      FindByNameAt(projects[1..], name, i - 1);
    }
  }

  /** After a save, selecting the saved name loads the saved record. */
  lemma SavedIsLoadable(projects: seq<map<string, Json>>, project: map<string, Json>, name: string)
    requires "name" in project && project["name"] == JString(name) && Upsert(projects, project).Ok?
    ensures var saved := Upsert(projects, project).value;
      FirstNamed(saved, name).Some? && saved[FirstNamed(saved, name).value] == project
  {
    var saved := Upsert(projects, project).value;
    var f := FindByName(projects, project["name"]).value;
    var i := if f.Some? then f.value else |projects|;
    FirstNamedIs(saved, name, i);
  }

  /** What a save writes is what the view starts from when it is opened again. */
  lemma {:induction false} ReopenAfterSave(projects: seq<map<string, Json>>)
    ensures InitialProjects(Store.Loaded(Store.Holding(ToJson(projects)), true)) == Some(projects)
  {
    var doc := ToJson(projects);
    Store.SaveThenLoad(doc.items);
    if projects != [] {
      var back := InitialProjects(doc).value;
      assert forall i :: 0 <= i < |projects| ==> doc.items[i] == JObject(projects[i]);
      assert back == projects;
    }
  }

  /** Removing a row takes out exactly that row, or nothing when it is not in the view. */
  lemma {:induction false} WithoutExact(rows: seq<StepRow>, nextKey: nat, key: nat, i: nat)
    requires KeysOk(rows, nextKey) && i < |rows| && rows[i].key == key
    ensures Without(rows, key) == rows[..i] + rows[i + 1..]
    decreases i
  {
    if i > 0 {
      var tail := rows[1..];
      assert rows[0].key != rows[i].key;
      assert tail[i - 1] == rows[i];
      assert KeysOk(tail, nextKey) by {
        assert forall j :: 0 <= j < |tail| ==> tail[j] == rows[j + 1];
      }
      WithoutExact(tail, nextKey, key, i - 1);
      assert rows[..i] + rows[i + 1..] == [rows[0]] + (tail[..i - 1] + tail[i..]);
    }
  }

  lemma {:induction false} WithoutAbsent(rows: seq<StepRow>, key: nat)
    requires !HasKey(rows, key)
    ensures Without(rows, key) == rows
    decreases |rows|
  {
    if rows != [] {
      assert rows[0].key != key;
      WithoutAbsent(rows[1..], key);
    }
  }

  /**
   * The save dialog opens exactly for a name with a non-space character and at
   * least one row, suggesting the name with spaces as underscores plus the suffix.
   */
  lemma ClickOpensDialog(name: string, rowCount: nat)
    ensures ClickOutcome(name, rowCount).OpenSaveDialog? <==> !Blank(name) && rowCount > 0
    ensures ClickOutcome(name, rowCount).OpenSaveDialog? ==>
      var f := ClickOutcome(name, rowCount).suggestedName;
      && |f| == |name| + |SUFFIX|
      && f[|name|..] == SUFFIX
      && (forall i :: 0 <= i < |name| ==> f[i] == (if name[i] == ' ' then '_' else name[i]))
      && (forall i :: 0 <= i < |name| ==> f[i] != ' ')
  {
  }
}
