# Project Estimator — a verified model of its core

The Project Estimator is a small desktop tool. A developer lists the steps of
a project with an hour estimate for each one. The tool keeps all projects in
one JSON file, renders a project as a PDF estimate table, and uploads a
project to Azure DevOps as a hierarchy of work items: Epic → Features → User
Stories → Tasks.

This Dafny project models the four pieces of sequential logic behind those
features and proves what they promise:

- **The DevOps upload** (`devops_client.dfy`, module `DevOps`).
  - `create_work_item` builds a JSON-Patch list: one `add` per field, plus a
    parent link when the parent id is truthy. It sends the list to a
    work-item service and raises on an error status.
  - `create_structure_from_json` creates the Epic, then runs three passes:
    Features, then User Stories, then Tasks. A name → id map, filled as items
    are created, resolves each child's parent.
  - The remote service is a class that logs every request it receives. The
    upload method is proved equal to a pure function, `Upload`.
  - `Upload` is characterised in closed form: the "ideal" request sequence,
    cut at the first failure. That gives:
    - the exact order of calls;
    - the parent of every item;
    - the payload of every item;
    - both failure modes;
    - that nothing is rolled back.
- **The project store** (`project_manager.dfy`, module `Store`).
  - The file is an environment object whose state is its decoded content.
  - Construction creates the empty list when the file is absent.
  - Saving overwrites the whole content.
  - Loading normalises what it reads: a dictionary gives its `projects`
    member, and any error gives the empty list.
  - Export returns the first project or raises.
- **The estimate table** (`pdf_generator.dfy`, module `Pdf`).
  - The header values and their defaults.
  - The stored total, or else the recomputed sum.
  - The placeholder row for an empty step list.
  - One row per step, in input order, with alternating fill.
  - The absolute output path, or the wrapped output error.
- **The main view's list logic** (`main_view.dfy`, modules `View` and
  `ViewProperties`). It is a class holding:
  - the project list;
  - the form fields;
  - the step rows;
  - the total label.

  Its handlers are proved against pure functions:
  - `save` is an upsert keyed by name;
  - loading a project;
  - adding and removing rows;
  - the two totals;
  - the collected project record;
  - the checks done before the PDF save dialog opens.

`wrappers.dfy` holds `Option` and `Result`. `json.dfy` holds the decoded JSON
value and Python's truth test and `dict.get` on it.

Environment inputs become parameters:
- the HTTP status of the service's n-th response is a function `statusOf`;
- the file system's permissions are fields of the `JsonFile` object;
- the working directory and whether the PDF write succeeds are parameters;
- the current date is a parameter;
- Python's `float(text)` and `str(value)` are the function parameters `parse`
  and `show` of the view.

Three behaviours of the code are easy to misread, and the model keeps them as
written:
- **The PDF total.** The table shows the stored `total` whenever it is present
  and not null, even when it disagrees with the steps. The sum is computed
  only without one (core/pdf_generator.py:97-102).
- **Parent tiers.** The upload never checks a parent's tier. A User Story or
  Task takes the id stored under its `parent` name, whichever kind of item
  created it, including an earlier item of its own tier.
- **HTTP errors.** The client prints a message for every status of 400 or
  more, but only `raise_for_status` aborts, and it raises for 400–599 only. A
  status of 600 or more is treated as a success.

## Model

| member | source | states |
|---|---|---|
| DevOps.BasicCredentials | core/helpers/devops_client.py:30 | the string encoded for Basic authentication is exactly a colon followed by the whole token (empty user-id) |
| DevOps.CredentialsRoundTrip | core/helpers/devops_client.py:30 | a server splitting that string at its first colon reads back an empty user-id and the whole token, colons included |
| DevOps.DecimalRoundTrip | core/helpers/devops_client.py:62 | the decimal text of a work-item id denotes that id |
| DevOps.WorkItemUrlRoundTrip | core/helpers/devops_client.py:62 | the parent link URL of work item `id` parses back to `id` for that organization and project |
| DevOps.WorkItemUrlInjective | core/helpers/devops_client.py:62 | distinct ids give distinct parent link URLs |
| DevOps.PatchOps | core/helpers/devops_client.py:51-64 | the payload has one op per field plus exactly one more iff the parent id is truthy (not None, not 0), and every op is `add` |
| DevOps.PatchOpsRoundTrip | core/helpers/devops_client.py:51-64 | reading a payload back gives exactly its fields in order, the parent exactly when the parent id is truthy, and the parent link is the last op |
| DevOps.FieldOpsRoundTrip | core/helpers/devops_client.py:51-54 | one `add` at `/fields/{key}` per field reads back as the field list and carries no parent |
| DevOps.CreateCall | core/helpers/devops_client.py:66-80 | one create call always appends its request to the log; it succeeds iff the status does not raise, and then returns the next id and advances the counter; otherwise it returns that status as the error and hands out no id |
| DevOps.WorkItemService.Patch | core/helpers/devops_client.py:66-80 | every request is appended to the service's log; an error status (400–599) returns no id and leaves the id counter; any other status returns the next fresh id and advances it |
| DevOps.DevOpsClient.constructor | core/helpers/devops_client.py:19-30 | the client keeps organization, project, token and service, and its credentials are `":" + pat` |
| DevOps.DevOpsClient.CreateWorkItem | core/helpers/devops_client.py:32-80 | the new service state and result are those of one create call with the payload of the fields and parent: logged always, an error on an error status, else the fresh id |
| DevOps.DevOpsClient.CreateItem | core/helpers/devops_client.py:120-134 | the step's work item is created with the step's type and fields, and on success its id is recorded under the step's name; a failed call is returned unchanged |
| DevOps.DevOpsClient.CreatePass | core/helpers/devops_client.py:136-161 | one pass equals `Run` over the steps of its type in input order: Features under the Epic, others under the looked-up parent, stopping at a missing or falsy parent or a failed call |
| DevOps.DevOpsClient.CreateStructureFromJson | core/helpers/devops_client.py:82-166 | the service's new state and the result are exactly `Upload` of the old state and the data |
| DevOps.CreateStep | core/helpers/devops_client.py:120-134 | `create_item` sends exactly the step's request; on success the step's name maps to the new id; on failure the map is unchanged and the status is the error |
| DevOps.Advance | core/helpers/devops_client.py:142-161 | one pass iteration raises the missing-parent error iff the step is not a Feature and its parent name has no truthy id yet; it then sends nothing; otherwise it sends the step's request with its resolved parent |
| DevOps.RunLog | core/helpers/devops_client.py:136-161 | visiting a step list only appends to the log, at most one request per step; when it does not stop it sends one request per step and hands out one id per step |
| DevOps.UploadLog | core/helpers/devops_client.py:82-166 | an upload always sends the Epic request first and at most one request per scheduled step, keeps what was logged before, and on success returns the Epic's id after sending one request per scheduled step |
| DevOps.Tier | core/helpers/devops_client.py:137-138 | a pass visits only steps of its type and at most as many as the input has |
| DevOps.TierMultiset | core/helpers/devops_client.py:137-161 | a pass visits every step of its type exactly as often as the input holds it, and no other step |
| DevOps.ScheduleMultiset | core/helpers/devops_client.py:136-161 | the three passes together visit exactly the Feature, User Story and Task steps, each as often as it occurs; a step of any other type produces no call |
| DevOps.ScheduleSorted | core/helpers/devops_client.py:136-161 | every Feature is visited before every User Story, and every User Story before every Task |
| DevOps.ReorderExample | core/helpers/devops_client.py:136-161 | input Task, User Story, Feature is visited as Feature, User Story, Task |
| DevOps.RunAppend | core/helpers/devops_client.py:136-161 | running two step lists back to back is running the second from where the first left off, unless the first stopped |
| DevOps.StoppedStaysStopped | core/helpers/devops_client.py:144-161 | once the upload raised, no later step changes anything (no further call) |
| DevOps.CreatedMapLast | core/helpers/devops_client.py:118-132 | a name is in the map exactly when some created item has it, and it maps to the id of the last such item (duplicates overwrite) |
| DevOps.RunIsClosedForm | core/helpers/devops_client.py:136-161 | the passes send the ideal requests in schedule order, cut at the first item whose parent does not resolve (before its call) or whose call fails (after it) |
| DevOps.UploadIsClosedForm | core/helpers/devops_client.py:105-166 | the whole upload is the Epic call followed by the closed form of the scheduled items |
| DevOps.UploadSendsIdealPrefix | core/helpers/devops_client.py:105-161 | whatever happens, the upload appends a non-empty prefix of the ideal request sequence (the Epic first) to what the service already had; nothing is rolled back |
| DevOps.UploadSucceeds | core/helpers/devops_client.py:105-166 | the upload succeeds iff the Epic call and every scheduled item go through; then it sent the whole ideal sequence, used one fresh id per request, and returns the Epic's id with the name → id map of what it created |
| DevOps.UploadFailure | core/helpers/devops_client.py:144-161 | an HTTP error is the status of the last call sent, with all earlier item calls successful; a missing parent names the next scheduled step, a User Story or Task whose parent is unmapped or mapped to 0 at that point, and is raised before that step's call |
| DevOps.IdealRequestShape | core/helpers/devops_client.py:118-161 | item k is created with its own type and fields; its parent link names the Epic for a Feature, else the id recorded so far under its parent name, of whatever tier; there is no link when that id is missing or 0 |
| DevOps.EpicRequestShape | core/helpers/devops_client.py:102-114 | the Epic has title `"{demand} - {name}"`, area path `"{project}\Digital Delivery Team"`, iteration path `"{project}\{project}"`, and no parent link |
| DevOps.ItemFieldsEstimate | core/helpers/devops_client.py:122-129 | every item has title, area path and iteration path; the original estimate is the fourth field, and only Tasks carry it, set to the hours or 0 |
| DevOps.EmptyUpload | core/helpers/devops_client.py:105-166 | with no steps and a successful Epic call, the upload sends one request and returns the Epic's id with an empty map |
| DevOps.ChildBeforeParentExample | core/helpers/devops_client.py:82-166 | a Task listed before its User Story, listed before its Feature, still gets ids 2, 3, 4 under Epic 1 when every call succeeds |
| Store.JsonFile.MakeDirectory | core/project_manager.py:34-40 | the directory exists afterwards iff it existed or could be created, and the result says so |
| Store.JsonFile.Write | core/project_manager.py:46-47 | a write succeeds iff the directory exists and the file is writable, and it then replaces the whole content; a failed write leaves the content |
| Store.JsonFile.Read | core/project_manager.py:61-63 | reading gives the decoded document iff the file holds JSON and is readable, else the matching read error |
| Store.Decode | core/project_manager.py:61-81 | a read succeeds exactly for a readable file that holds a document, and yields that document |
| Store.Normalise | core/project_manager.py:66-72 | a dictionary becomes its `projects` member, or `[]` when it has none; any other value is kept |
| Store.Loaded | core/project_manager.py:53-81 | what `load_projects` returns always has a length, and it is the empty list whenever reading or decoding fails |
| Store.Export | core/project_manager.py:99-119 | export fails with "no projects" iff the loaded value is falsy; a success is the first element of a non-empty list, and it is a dictionary |
| Store.ProjectManager.Open | core/project_manager.py:23-51 | construction makes the directory, then creates the file holding `[]` only when it is absent; an existing file (even one that does not decode) is untouched; each failure is reported as the error it raises |
| Store.ProjectManager.LoadProjects | core/project_manager.py:53-81 | loading returns `Loaded` of the file: normalised when the file holds JSON, the empty list on any error |
| Store.ProjectManager.SaveProjects | core/project_manager.py:83-97 | a writable file always gets the whole content replaced by the value; an unwritable one is left unchanged with the write error; a value without a length (number, boolean, null) is written and then raises from the debug message's `len`; success means writable and a value with a length |
| Store.ProjectManager.ExportProjectToJson | core/project_manager.py:99-119 | export returns `Export` of what loading gives |
| Store.LoadedDocument | core/project_manager.py:61-75 | a list or string is returned unchanged; a dictionary gives its `projects` member when that has a length, else `[]`; a number, boolean or null gives `[]` |
| Store.SaveThenLoad | core/project_manager.py:61-94 | a saved list loads back as exactly that list |
| Store.SaveThenLoadExactly | core/project_manager.py:61-94 | a saved document loads back unchanged iff it is a list or a string |
| Store.UnreadableExportsNothing | core/project_manager.py:76-110 | a missing, unreadable or undecodable file loads as `[]`, and export then raises "no projects" |
| Store.ExportAfterSave | core/project_manager.py:83-116 | after saving a non-empty list whose first element is a dictionary, export returns that element |
| Pdf.StepsValue | core/pdf_generator.py:94 | missing or falsy steps become `[]`, and truthy steps are kept as they are |
| Pdf.HoursOf | core/pdf_generator.py:148 | a step's hours are its `hours` member, or 0 when it has none |
| Pdf.StepFill | core/pdf_generator.py:145-157 | step row i is grey exactly when i is odd, else white; never the placeholder's grey |
| Pdf.Formattable | core/pdf_generator.py:156 | the one-decimal format accepts exactly numbers and booleans |
| Pdf.SumList | core/pdf_generator.py:99-102 | the generator sum succeeds iff every step is a dictionary whose hours (0 when missing) are numeric |
| Pdf.TotalValue | core/pdf_generator.py:97-102 | a stored total that is present and not null is used as it is, whatever the steps say |
| Pdf.Rows | core/pdf_generator.py:145-157 | when the rows can be made, there is one per step |
| Pdf.RenderRows | core/pdf_generator.py:145-157 | the row loop, toggling its fill flag, produces exactly `Rows` of the steps, including the error of the first step that cannot be shown |
| Pdf.Body | core/pdf_generator.py:140-157 | falsy steps give the single placeholder row; other steps that render are a list with one row per step; a truthy number or boolean is not iterable |
| Pdf.Generate | core/pdf_generator.py:80-183 | a generated document means the write succeeded; its path is the absolute destination, its title the name or `'Untitled Project'`, and it has at least one row |
| Pdf.GeneratePdf | core/pdf_generator.py:80-183 | the generator returns exactly `Generate` of the project, destination, working directory and write outcome |
| Pdf.RowsAt | core/pdf_generator.py:145-157 | row k shows step k's name (`'Unnamed task'` when missing) and its hours (0 when missing), and is grey exactly when k is odd |
| Pdf.RowsOkIff | core/pdf_generator.py:146-156 | the rows can be made iff every step is a dictionary with formattable hours |
| Pdf.SumMatchesRows | core/pdf_generator.py:97-157 | when the rows can be made, the recomputed sum equals the sum of the hours the rows show |
| Pdf.NoStepsPlaceholder | core/pdf_generator.py:140-142 | an empty step list renders the single placeholder row `'No tasks recorded for this project.'` |
| Pdf.SumFallbackNeverShown | core/pdf_generator.py:97-166 | without a stored total, the total of a generated document is the sum of its rows' hours, so the caught-error 0 never reaches the page |
| Pdf.GeneratedHeader | core/pdf_generator.py:90-183 | a generated document has the absolute destination path, name/developer/date or their defaults, the stored total when there is one, and the placeholder iff there are no steps |
| Pdf.OutputFailure | core/pdf_generator.py:178-181 | a document that would be generated fails with the wrapped runtime error when the write fails |
| Pdf.AbsoluteIsAbsolute | core/pdf_generator.py:183 | the returned path is absolute, resolving it again changes nothing, and an empty destination resolves to the working directory |
| View.StepRecord | ui/main_view.py:128-134 | each collected step is a record with exactly the keys `name` and `hours` |
| View.StepRecords | ui/main_view.py:127-134 | one collected step per row, in row order |
| View.FindByName | ui/main_view.py:182 | finds the first project with the same name; None means every project has another name; KeyError means some project has no name |
| View.FirstNamed | ui/main_view.py:168-169 | finds the first project whose name equals the selection, and None means none does |
| View.InitialProjects | ui/main_view.py:33-92 | a falsy loaded value gives no projects; a list of dictionaries gives one project per element, each that element's members; any other value makes opening the view fail |
| View.LoadedRows | ui/main_view.py:173-174 | rebuilding yields row j from step j with key `key0 + j`, for as many steps as it gets through; it gets through all of them iff every step is a dictionary |
| View.LoadedRow | ui/main_view.py:145-147 | the row has the given control, no name iff the step's name is missing or null, a string name and string hours as stored, and `show` of the number 0 for missing hours |
| View.StepsToLoad | ui/main_view.py:173 | missing steps are `[]`, a list is iterated as it is, a number, boolean or null is not iterable, and a non-empty string or dictionary yields non-dictionary elements |
| View.LabelTotal | ui/main_view.py:113-120 | `update_total`'s sum is 0 when every hours field is empty or unparsable, and non-negative when every field's hours are |
| View.CollectedTotalBounds | ui/main_view.py:126-135 | `collect_project_data`'s total is 0 when no hours field parses, and non-negative when every row's hours are |
| ViewProperties.CollectedFields | ui/main_view.py:123-143 | the record has exactly name, developer, date, steps and total; the developer is `"N/A"` for an empty field; one step record per row in row order; the total is the collected total |
| View.Upsert | ui/main_view.py:179-186 | the upsert fails with KeyError iff the name search does; on success the list grows by at most one and contains the project, and an append keeps every old entry in place |
| View.ClickOutcome | ui/main_view.py:196-202 | the name warning is given iff the name is blank, and the steps warning iff the name is not blank and there are no rows |
| View.ReplaceSpaces | ui/main_view.py:205 | the name keeps its length, and exactly its spaces become underscores |
| View.RemoveKeepsKeys | ui/main_view.py:149-150 | removing one row keeps every row control distinct |
| View.EstimatorView.Open | ui/main_view.py:33-92 | the view opens with the loaded projects (falsy → none) and empty rows, and fails when a loaded element is not a dictionary |
| View.EstimatorView.UpdateTotal | ui/main_view.py:113-121 | the label shows the sum of the hours fields, empty or unparsable ones counting 0 |
| View.EstimatorView.CollectProjectData | ui/main_view.py:123-143 | the record is `Collected` of the form: name, developer or `"N/A"`, today's date, one `{name, hours}` per row, and their total |
| View.EstimatorView.AddStep | ui/main_view.py:163-165 | exactly one new empty row is appended at the end, with a control distinct from all others |
| View.EstimatorView.RemoveStep | ui/main_view.py:149-152 | the rows lose exactly the row whose control it is, and the label is recomputed; a control not in the view is an error and changes nothing |
| View.EstimatorView.FindRow | ui/main_view.py:150 | the search stops at the row whose control it is, reaches the end iff there is none, and removing the row found is exactly `Without` |
| View.EstimatorView.LoadProject | ui/main_view.py:167-177 | the first project with the selected name fills the form, rebuilds its rows in stored order and shows its stored total (0 when missing); a non-dictionary step stops the rebuild with the rows built so far; no match changes nothing |
| View.EstimatorView.FindSelected | ui/main_view.py:168-169 | the search loop ends at the first project with the selected name |
| View.EstimatorView.RebuildRows | ui/main_view.py:172-174 | the rows are exactly `LoadedRows` of the stored steps, complete iff every step was a dictionary |
| View.EstimatorView.Save | ui/main_view.py:179-190 | a nameless project before the first same-named one raises before any change; otherwise the list becomes the upsert; on a successful write the file holds the whole list and the label shows the collected total; on a failed write the list is already updated but the file and label are not |
| View.EstimatorView.GeneratePdfClick | ui/main_view.py:192-212 | the button yields `ClickOutcome` of the name field and the row count |
| View.EstimatorView.GeneratePdfWithPath | ui/main_view.py:214-223 | the PDF is `Generate` of the collected record at the chosen path, or the error shown instead |
| ViewProperties.TotalsAgree | ui/main_view.py:113-135 | `update_total` and `collect_project_data` compute the same total for the same rows |
| ViewProperties.CollectedSumsToTotal | ui/main_view.py:125-142 | the collected total is the sum of the collected step hours |
| ViewProperties.CollectedRenders | ui/main_view.py:214-219 | a collected form always renders when the file can be written: its name as title, one row per form row (or the placeholder), and a total equal to the rows' hours |
| ViewProperties.ReloadRows | ui/main_view.py:123-174 | loading collected steps gives back every row's name and the recorded hours, in order |
| ViewProperties.UpsertShape | ui/main_view.py:179-186 | the upsert replaces the first same-named project in place (same length) or appends (length + 1), and leaves every other entry unchanged |
| ViewProperties.UpsertIdempotent | ui/main_view.py:179-186 | saving the same form twice leaves the list as saving it once |
| ViewProperties.SavedIsLoadable | ui/main_view.py:167-186 | after a save, selecting the saved name loads exactly the saved record |
| ViewProperties.ReopenAfterSave | ui/main_view.py:33-188 | the list a save writes is the list the view starts from when opened again |
| ViewProperties.WithoutExact | ui/main_view.py:149-152 | removing a row present at index i takes out exactly index i |
| ViewProperties.WithoutAbsent | ui/main_view.py:149-152 | removing a row that is not in the view leaves the rows as they are |
| ViewProperties.ClickOpensDialog | ui/main_view.py:196-205 | the dialog opens iff the name has a non-space character and there is a row; the suggestion is the name with spaces as underscores followed by `_estimate.pdf` |

## Left out

- HTTP itself is not modelled. The URL and headers of `requests.patch`, JSON encoding, base64 and the console messages are left out; the service is an abstract object answering with a status.
- DevOps.WorkItemService.Patch: a response that does not raise is assumed to carry the next fresh id. The response body (`response.json()["id"]`) is not modelled.
- DevOps.DevOpsClient.CreateStructureFromJson: project data and steps are typed records. So the model leaves out:
  - a KeyError for a missing `demand`, `name`, `steps`, step `name` or step `type`;
  - `float()` of a non-numeric hours value;
  - the difference between missing hours and null hours (both count as 0 here).
- DevOps.WorkItemService.Patch: transport exceptions of `requests.patch` (connection errors, timeouts) are not modelled. They would abort the upload like an error status, but possibly without the request reaching the service's log.
- DevOps.WorkItemService.Patch: a success body that `response.json()` cannot decode, or that lacks an `id`, is not modelled.
- `criar_estrutura_desde_json` only delegates to `create_structure_from_json`, so it has no member of its own.
- The file system is abstracted to the `JsonFile` object: its content, whether the directory exists, and three permissions. `mkdir`, `open`, `json.load`/`json.dump`, the network-path fallback and logging are not modelled.
- Store.ProjectManager.SaveProjects: the module-wide lock that serialises saves is not modelled, because concurrency is out of scope. Nor is a write that fails after `open` has already truncated the file: every modelled write failure happens at `open`, so the old content stays; the `len` error comes after a complete write.
- Pdf.GeneratePdf: the PDF library's layout, fonts, colours, page breaks and the text of `'{:.1f}h'` are not modelled. A value shown in a cell is kept as the JSON value or real number it displays.
- Pdf.GeneratePdf: an error the PDF library could raise on a non-string name or developer, or on a character its font cannot encode, is not modelled.
- Pdf.Generate: the destination is always given. The default `"estimate.pdf"` is not modelled, because the view always passes the chosen path.
- Pdf.Absolute: `os.path.abspath` is resolution against the working directory, and an empty destination gives the working directory itself. The normalisation of `..`, `.` and repeated or trailing slashes is not modelled.
- `float(text)` and `str(value)` are the uninterpreted parameters `parse` and `show`. Floating-point rounding is not modelled: hours are `real`.
- JSON integers and floats are one `JNumber(real)`, so `show` cannot tell `0` from `0.0`. This affects the loaded hours text when hours are missing (`st.get("hours", 0)`), the loaded total label (`p.get('total', 0)`), and the int `0` that `collect_project_data` saves for unparsable hours. `float()`'s `nan` and infinities are outside `parse`, so the model's total is never `nan`.
- The Flet widgets are reduced to their values. Text fields hold strings, with `""` for an empty field; a step name loaded from a step without a name is None. Not modelled:
  - notifications;
  - the file picker and its cancel message;
  - the dropdown's option list;
  - page updates;
  - layout.
- View.EstimatorView.LoadProject: values assigned to text fields go through `show`. How Flet itself renders a non-string value is not modelled.
- The thin wrappers in core/helpers (project_utils, template_utils, ui_utils, dialog_utils), the configuration, the entry point and the build script are not part of this model.
