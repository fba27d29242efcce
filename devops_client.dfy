/**
 * The Azure DevOps upload: one create call per work item, each described by a
 * JSON-Patch list of field operations and an optional parent link, and the
 * Epic -> Feature -> User Story -> Task upload built from three ordered passes
 * over a project's steps.
 *
 * The remote side is a `WorkItemService` object that logs every request it
 * receives; the HTTP status of its n-th response is given by the environment
 * (`statusOf(n)`), and every response that does not raise carries the next
 * fresh id.
 */
module DevOps {
  import opened Wrappers

  const EPIC: string := "Epic"
  const FEATURE: string := "Feature"
  const USER_STORY: string := "User Story"
  const TASK: string := "Task"

  const TITLE: string := "System.Title"
  const AREA_PATH: string := "System.AreaPath"
  const ITERATION_PATH: string := "System.IterationPath"
  const ORIGINAL_ESTIMATE: string := "Microsoft.VSTS.Scheduling.OriginalEstimate"

  const ADD: string := "add"
  const FIELD_PREFIX: string := "/fields/"
  const RELATIONS_PATH: string := "/relations/-"
  const PARENT_LINK: string := "System.LinkTypes.Hierarchy-Reverse"

  // ---------------------------------------------------------------------------
  // Basic authentication (section 2 of RFC 7617)
  // ---------------------------------------------------------------------------

  /** The user-pass string the client base64-encodes: an empty user-id, a colon, the token. */
  function BasicCredentials(pat: string): (userPass: string)
    ensures userPass == ":" + pat
    ensures |userPass| == |pat| + 1 && userPass[0] == ':'
  {
    ":" + pat
  }

  /** Index of the first colon of `s`, if it has one. */
  function FirstColon(s: string): (r: Option<nat>)
    ensures r.Some? ==> r.value < |s| && s[r.value] == ':'
    ensures r.Some? ==> forall i :: 0 <= i < r.value ==> s[i] != ':'
    ensures r.None? ==> forall i :: 0 <= i < |s| ==> s[i] != ':'
  {
    if s == [] then None
    else if s[0] == ':' then Some(0)
    else match FirstColon(s[1..])
      case None => None
      case Some(i) => Some(i + 1)
  }

  /**
   * How a server splits a user-pass string: the user-id cannot contain a colon,
   * so everything after the first colon is the password.
   */
  function SplitUserPass(userPass: string): Option<(string, string)> {
    match FirstColon(userPass)
    case None => None
    case Some(i) => Some((userPass[..i], userPass[i + 1..]))
  }

  /** The server reads back an empty user-id and the whole token, colons included. */
  lemma CredentialsRoundTrip(pat: string)
    ensures SplitUserPass(BasicCredentials(pat)) == Some(("", pat))
  {
    assert FirstColon(BasicCredentials(pat)) == Some(0);
  }

  // ---------------------------------------------------------------------------
  // Work-item URLs: Python's f"{parent_id}" written out as decimal digits
  // ---------------------------------------------------------------------------

  predicate IsDigits(s: string) {
    forall i :: 0 <= i < |s| ==> '0' <= s[i] <= '9'
  }

  function DigitChar(d: nat): char
    requires d < 10
  {
    ('0' as int + d) as char
  }

  /** The decimal representation of `n`, without leading zeros. */
  function Decimal(n: nat): (s: string)
    ensures |s| >= 1 && IsDigits(s)
    decreases n
  {
    if n < 10 then [DigitChar(n)] else Decimal(n / 10) + [DigitChar(n % 10)]
  }

  /** The number a string of decimal digits denotes. */
  function DecimalValue(s: string): nat
    requires IsDigits(s)
    decreases |s|
  {
    if s == [] then 0 else DecimalValue(s[..|s| - 1]) * 10 + (s[|s| - 1] as int - '0' as int)
  }

  lemma {:induction false} DecimalRoundTrip(n: nat)
    ensures DecimalValue(Decimal(n)) == n
  {
    if n >= 10 {
      DecimalRoundTrip(n / 10);
      var s := Decimal(n);
      assert s[..|s| - 1] == Decimal(n / 10);
    }
  }

  function WorkItemsBase(organization: string, project: string): string {
    "https://dev.azure.com/" + organization + "/" + project + "/_apis/wit/workitems/"
  }

  /** The URL of work item `id`, as the parent link names it. */
  function WorkItemUrl(organization: string, project: string, id: nat): string {
    WorkItemsBase(organization, project) + Decimal(id)
  }

  /** The work-item id a URL of this organization and project names, if it names one. */
  function ParseWorkItemUrl(organization: string, project: string, url: string): Option<nat> {
    var base := WorkItemsBase(organization, project);
    if |base| < |url| && url[..|base|] == base && IsDigits(url[|base|..])
    then Some(DecimalValue(url[|base|..]))
    else None
  }

  lemma WorkItemUrlRoundTrip(organization: string, project: string, id: nat)
    ensures ParseWorkItemUrl(organization, project, WorkItemUrl(organization, project, id)) == Some(id)
  {
    var base := WorkItemsBase(organization, project);
    var url := WorkItemUrl(organization, project, id);
    assert url[..|base|] == base;
    assert url[|base|..] == Decimal(id);
    DecimalRoundTrip(id);
  }

  /** Distinct work items have distinct URLs, so a parent link identifies its parent. */
  lemma WorkItemUrlInjective(organization: string, project: string, a: nat, b: nat)
    requires WorkItemUrl(organization, project, a) == WorkItemUrl(organization, project, b)
    ensures a == b
  {
    WorkItemUrlRoundTrip(organization, project, a);
    WorkItemUrlRoundTrip(organization, project, b);
  }

  // ---------------------------------------------------------------------------
  // The JSON-Patch payload of one create call
  // ---------------------------------------------------------------------------

  datatype FieldValue = Text(text: string) | Number(number: real)

  /** One entry of the `fields` dictionary; a field list keeps the dictionary's insertion order. */
  datatype Field = Field(key: string, value: FieldValue)

  datatype PatchValue = Value(field: FieldValue) | Link(rel: string, url: string)

  datatype PatchOp = PatchOp(op: string, path: string, value: PatchValue)

  /** Python's truth test on `parent_id`: None and 0 are false. */
  predicate Truthy(id: Option<nat>) {
    id.Some? && id.value != 0
  }

  /** The payload of `create_work_item`: one add per field, then the parent link if any. */
  function PatchOps(organization: string, project: string, fields: seq<Field>, parentId: Option<nat>): (ops: seq<PatchOp>)
    ensures |ops| == |fields| + if Truthy(parentId) then 1 else 0
    ensures forall i :: 0 <= i < |ops| ==> ops[i].op == ADD
  {
    var fieldOps := seq(|fields|, i requires 0 <= i < |fields| =>
      PatchOp(ADD, FIELD_PREFIX + fields[i].key, Value(fields[i].value)));
    if Truthy(parentId)
    then fieldOps + [PatchOp(ADD, RELATIONS_PATH, Link(PARENT_LINK, WorkItemUrl(organization, project, parentId.value)))]
    else fieldOps
  }

  function IsFieldOp(o: PatchOp): bool {
    o.op == ADD && |FIELD_PREFIX| <= |o.path| && o.path[..|FIELD_PREFIX|] == FIELD_PREFIX && o.value.Value?
  }

  function IsParentLinkOp(o: PatchOp): bool {
    o.op == ADD && o.path == RELATIONS_PATH && o.value.Link? && o.value.rel == PARENT_LINK
  }

  /** The fields a payload sets, read back in payload order. */
  function FieldsOf(ops: seq<PatchOp>): seq<Field> {
    if ops == [] then []
    else if IsFieldOp(ops[0]) then [Field(ops[0].path[|FIELD_PREFIX|..], ops[0].value.field)] + FieldsOf(ops[1..])
    else FieldsOf(ops[1..])
  }

  /** The id named by the payload's first parent link, if it has one. */
  function ParentOf(organization: string, project: string, ops: seq<PatchOp>): Option<nat> {
    if ops == [] then None
    else if IsParentLinkOp(ops[0]) then ParseWorkItemUrl(organization, project, ops[0].value.url)
    else ParentOf(organization, project, ops[1..])
  }

  lemma {:induction false} FieldOpsRoundTrip(ops: seq<PatchOp>, fields: seq<Field>)
    requires |ops| == |fields|
    requires forall i :: 0 <= i < |ops| ==> ops[i] == PatchOp(ADD, FIELD_PREFIX + fields[i].key, Value(fields[i].value))
    ensures FieldsOf(ops) == fields
    ensures forall organization, project :: ParentOf(organization, project, ops) == None
  {
    if ops != [] {
      FieldOpsRoundTrip(ops[1..], fields[1..]);
      assert (FIELD_PREFIX + fields[0].key)[..|FIELD_PREFIX|] == FIELD_PREFIX;
      assert (FIELD_PREFIX + fields[0].key)[|FIELD_PREFIX|..] == fields[0].key;
    }
  }

  /**
   * Reading a payload back gives exactly the fields, in order, and the parent
   * exactly when the parent id is truthy; the link is the payload's last op.
   */
  lemma PatchOpsRoundTrip(organization: string, project: string, fields: seq<Field>, parentId: Option<nat>)
    ensures var ops := PatchOps(organization, project, fields, parentId);
      && FieldsOf(ops) == fields
      && ParentOf(organization, project, ops) == (if Truthy(parentId) then parentId else None)
      && (forall i :: 0 <= i < |fields| ==> IsFieldOp(ops[i]))
      && (Truthy(parentId) ==> IsParentLinkOp(ops[|ops| - 1]))
  {
    var ops := PatchOps(organization, project, fields, parentId);
    var fieldOps := ops[..|fields|];
    FieldOpsRoundTrip(fieldOps, fields);
    forall i | 0 <= i < |fields| ensures IsFieldOp(ops[i]) {
      assert ops[i] == fieldOps[i];
      assert (FIELD_PREFIX + fields[i].key)[..|FIELD_PREFIX|] == FIELD_PREFIX;
    }
    if Truthy(parentId) {
      var link := ops[|fields|];
      assert ops == fieldOps + [link];
      FieldsOfAppend(fieldOps, [link]);
      ParentOfAppend(organization, project, fieldOps, [link]);
      WorkItemUrlRoundTrip(organization, project, parentId.value);
    } else {
      assert ops == fieldOps;
    }
  }

  lemma {:induction false} FieldsOfAppend(a: seq<PatchOp>, b: seq<PatchOp>)
    ensures FieldsOf(a + b) == FieldsOf(a) + FieldsOf(b)
  {
    if a != [] {
      assert (a + b)[1..] == a[1..] + b;
      FieldsOfAppend(a[1..], b);
    } else {
      assert a + b == b;
    }
  }

  lemma {:induction false} ParentOfAppend(organization: string, project: string, a: seq<PatchOp>, b: seq<PatchOp>)
    requires ParentOf(organization, project, a) == None
    requires forall i :: 0 <= i < |a| ==> !IsParentLinkOp(a[i])
    ensures ParentOf(organization, project, a + b) == ParentOf(organization, project, b)
  {
    if a != [] {
      assert (a + b)[1..] == a[1..] + b;
      assert (a + b)[0] == a[0];
      ParentOfAppend(organization, project, a[1..], b);
    } else {
      assert a + b == b;
    }
  }

  // ---------------------------------------------------------------------------
  // The remote work-item service
  // ---------------------------------------------------------------------------

  /** One create request: the work-item type named in the URL and the patch body. */
  datatype Request = Request(workItemType: string, ops: seq<PatchOp>)

  /** The service's state as a value: every request received, and the id it hands out next. */
  datatype Remote = Remote(log: seq<Request>, nextId: nat)

  /** A response: its HTTP status and, when the item was created, the new id. */
  datatype Response = Response(status: int, id: Option<nat>)

  datatype UploadError =
    | HttpError(status: int)                  // raised by `raise_for_status`
    | MissingParent(tier: string, step: string) // the ValueError of the upload

  /**
   * The statuses `raise_for_status` turns into an exception: client errors
   * (400-499) and server errors (500-599). A status of 600 or more is reported
   * on the console but does not raise.
   */
  predicate Raises(status: int) {
    400 <= status < 600
  }

  /**
   * What one `create_work_item` call does to the service and returns: the request
   * is logged whatever the status; a client or server error status raises, any
   * other status returns the next fresh id.
   */
  function CreateCall(statusOf: nat -> int, remote: Remote, request: Request): (r: (Remote, Result<nat, UploadError>))
    ensures r.0.log == remote.log + [request]
    ensures r.1.Ok? <==> !Raises(statusOf(|remote.log|))
    ensures r.1.Ok? ==> r.1.value == remote.nextId && r.0.nextId == remote.nextId + 1
    ensures r.1.Err? ==> r.1.error == HttpError(statusOf(|remote.log|)) && r.0.nextId == remote.nextId
  {
    var status := statusOf(|remote.log|);
    if Raises(status) then (Remote(remote.log + [request], remote.nextId), Err(HttpError(status)))
    else (Remote(remote.log + [request], remote.nextId + 1), Ok(remote.nextId))
  }

  class WorkItemService {
    var log: seq<Request>
    var nextId: nat
    /** The HTTP status the service answers its n-th request with (its environment). */
    const statusOf: nat -> int

    ghost predicate Valid()
      reads this
    {
      nextId >= 1
    }

    function State(): Remote
      reads this
    {
      Remote(log, nextId)
    }

    constructor (statusOf: nat -> int, firstId: nat)
      requires firstId >= 1
      ensures Valid() && State() == Remote([], firstId) && this.statusOf == statusOf
    {
      this.statusOf := statusOf;
      log := [];
      nextId := firstId;
    }

    /** Receives one HTTP PATCH; a successful create answers with a fresh positive id. */
    method Patch(request: Request) returns (response: Response)
      requires Valid()
      modifies this
      ensures Valid() && log == old(log) + [request]
      ensures response.status == statusOf(|old(log)|)
      ensures Raises(response.status) ==> response.id == None && nextId == old(nextId)
      ensures !Raises(response.status) ==> response.id == Some(old(nextId)) && nextId == old(nextId) + 1
    {
      var status := statusOf(|log|);
      log := log + [request];
      if Raises(status) {
        response := Response(status, None);
      } else {
        response := Response(status, Some(nextId));
        nextId := nextId + 1;
      }
    }
  }

  // ---------------------------------------------------------------------------
  // The upload, as a function of the project data and the service's state
  // ---------------------------------------------------------------------------

  datatype UploadStep = UploadStep(name: string, kind: string, parent: Option<string>, hours: Option<real>)

  datatype UploadData = UploadData(demand: string, name: string, steps: seq<UploadStep>)

  /** The upload's result: the Epic's id and, per created step name, its id. */
  datatype Structure = Structure(epic: nat, items: map<string, nat>)

  /** The client's configuration together with the service's answers. */
  datatype Settings = Settings(organization: string, project: string, statusOf: nat -> int)

  function AreaPath(project: string): string {
    project + "\\Digital Delivery Team"
  }

  function IterationPath(project: string): string {
    project + "\\" + project
  }

  function EpicTitle(data: UploadData): string {
    data.demand + " - " + data.name
  }

  function EpicFields(project: string, data: UploadData): seq<Field> {
    [Field(TITLE, Text(EpicTitle(data))),
     Field(AREA_PATH, Text(AreaPath(project))),
     Field(ITERATION_PATH, Text(IterationPath(project)))]
  }

  /** The fields of a step's work item; only a Task carries an original estimate. */
  function ItemFields(project: string, step: UploadStep): seq<Field> {
    [Field(TITLE, Text(step.name)),
     Field(AREA_PATH, Text(AreaPath(project))),
     Field(ITERATION_PATH, Text(IterationPath(project)))]
    + if step.kind == TASK then [Field(ORIGINAL_ESTIMATE, Number(step.hours.GetOr(0.0)))] else []
  }

  function EpicRequest(s: Settings, data: UploadData): Request {
    Request(EPIC, PatchOps(s.organization, s.project, EpicFields(s.project, data), None))
  }

  function ItemRequest(s: Settings, step: UploadStep, parentId: Option<nat>): Request {
    Request(step.kind, PatchOps(s.organization, s.project, ItemFields(s.project, step), parentId))
  }

  /** The steps of one type, in input order. */
  function Tier(steps: seq<UploadStep>, kind: string): (tier: seq<UploadStep>)
    ensures |tier| <= |steps|
    ensures forall i :: 0 <= i < |tier| ==> tier[i].kind == kind
    decreases |steps|
  {
    if steps == [] then []
    else Tier(steps[..|steps| - 1], kind) + if steps[|steps| - 1].kind == kind then [steps[|steps| - 1]] else []
  }

  /** The order the three passes visit steps in: all Features, all User Stories, all Tasks. */
  function Schedule(steps: seq<UploadStep>): seq<UploadStep> {
    Tier(steps, FEATURE) + Tier(steps, USER_STORY) + Tier(steps, TASK)
  }

  /** `created.get(parent_name)`: the id stored for the parent name, if there is one. */
  function Lookup(created: map<string, nat>, parent: Option<string>): Option<nat> {
    if parent.Some? && parent.value in created then Some(created[parent.value]) else None
  }

  /** The parent id a step is created with: the Epic for a Feature, the lookup otherwise. */
  function ParentFor(epicId: nat, created: map<string, nat>, step: UploadStep): Option<nat> {
    if step.kind == FEATURE then Some(epicId) else Lookup(created, step.parent)
  }

  datatype Progress = Progress(remote: Remote, created: map<string, nat>)

  datatype Outcome = Running(progress: Progress) | Stopped(progress: Progress, error: UploadError)

  /** `create_item`: create the step's work item with the given parent and record its id. */
  function CreateStep(s: Settings, p: Progress, step: UploadStep, parentId: Option<nat>): (o: Outcome)
    ensures o.progress.remote.log == p.remote.log + [ItemRequest(s, step, parentId)]
    ensures o.Running? <==> !Raises(s.statusOf(|p.remote.log|))
    ensures o.Running? ==> o.progress.remote.nextId == p.remote.nextId + 1
                           && o.progress.created == p.created[step.name := p.remote.nextId]
    ensures o.Stopped? ==> o.progress.remote.nextId == p.remote.nextId && o.progress.created == p.created
                           && o.error == HttpError(s.statusOf(|p.remote.log|))
  {
    var (remote, result) := CreateCall(s.statusOf, p.remote, ItemRequest(s, step, parentId));
    match result
    case Err(e) => Stopped(Progress(remote, p.created), e)
    case Ok(id) => Running(Progress(remote, p.created[step.name := id]))
  }

  /** One iteration of a pass: resolve the parent (not for Features), then `create_item`. */
  function Advance(s: Settings, epicId: nat, p: Progress, step: UploadStep): (o: Outcome)
    ensures o.Stopped? && o.error.MissingParent? <==> step.kind != FEATURE && !Truthy(Lookup(p.created, step.parent))
    ensures o.Stopped? && o.error.MissingParent? ==> o.progress == p && o.error == MissingParent(step.kind, step.name)
    ensures !(o.Stopped? && o.error.MissingParent?) ==>
              o.progress.remote.log == p.remote.log + [ItemRequest(s, step, ParentFor(epicId, p.created, step))]
    ensures o.Running? ==> o.progress.remote.nextId == p.remote.nextId + 1
  {
    var parentId := ParentFor(epicId, p.created, step);
    if step.kind != FEATURE && !Truthy(parentId) then Stopped(p, MissingParent(step.kind, step.name))
    else CreateStep(s, p, step, parentId)
  }

  /** Visiting `items` in order from `start`; the first failure stops everything. */
  function Run(s: Settings, epicId: nat, start: Progress, items: seq<UploadStep>): Outcome
    decreases |items|
  {
    if items == [] then Running(start)
    else
      var before := Run(s, epicId, start, items[..|items| - 1]);
      if before.Stopped? then before else Advance(s, epicId, before.progress, items[|items| - 1])
  }

  /** `create_structure_from_json`: the Epic, then the three passes. */
  function Upload(s: Settings, remote: Remote, data: UploadData): (Remote, Result<Structure, UploadError>) {
    var (afterEpic, epic) := CreateCall(s.statusOf, remote, EpicRequest(s, data));
    if epic.Err? then (afterEpic, Err(epic.error))
    else Finish(epic.value, Run(s, epic.value, Progress(afterEpic, map[]), Schedule(data.steps)))
  }

  /**
   * A run only appends to the log, at most one request per step; a run that
   * did not stop sent one request and used one id per step.
   */
  lemma {:induction false} RunLog(s: Settings, epicId: nat, start: Progress, items: seq<UploadStep>)
    ensures var o := Run(s, epicId, start, items);
      var log := o.progress.remote.log;
      && |start.remote.log| <= |log| <= |start.remote.log| + |items|
      && log[..|start.remote.log|] == start.remote.log
      && (o.Running? ==> |log| == |start.remote.log| + |items| && o.progress.remote.nextId == start.remote.nextId + |items|)
    decreases |items|
  {
    if items != [] {
      var init := items[..|items| - 1];
      RunLog(s, epicId, start, init);
      var before := Run(s, epicId, start, init);
      if before.Running? {
        var log := Advance(s, epicId, before.progress, items[|items| - 1]).progress.remote.log;
        assert log[..|start.remote.log|] == before.progress.remote.log[..|start.remote.log|];
      }
    }
  }

  /**
   * An upload sends the Epic request first and at most one request per
   * scheduled step after what was logged before; on success it returns the
   * Epic's id after one request per scheduled step.
   */
  lemma UploadLog(s: Settings, remote: Remote, data: UploadData)
    ensures var (after, r) := Upload(s, remote, data);
      && |remote.log| < |after.log| <= |remote.log| + 1 + |Schedule(data.steps)|
      && after.log[..|remote.log|] == remote.log && after.log[|remote.log|] == EpicRequest(s, data)
      && (r.Ok? ==> r.value.epic == remote.nextId && |after.log| == |remote.log| + 1 + |Schedule(data.steps)|)
  {
    var (afterEpic, epic) := CreateCall(s.statusOf, remote, EpicRequest(s, data));
    if epic.Ok? {
      var start := Progress(afterEpic, map[]);
      RunLog(s, epic.value, start, Schedule(data.steps));
      var log := Run(s, epic.value, start, Schedule(data.steps)).progress.remote.log;
      assert log[..|remote.log|] == log[..|afterEpic.log|][..|remote.log|];
      assert log[|remote.log|] == log[..|afterEpic.log|][|remote.log|];
    }
  }

  lemma {:induction false} RunAppend(s: Settings, epicId: nat, start: Progress, a: seq<UploadStep>, b: seq<UploadStep>)
    ensures Run(s, epicId, start, a + b) ==
      match Run(s, epicId, start, a)
      case Stopped(_, _) => Run(s, epicId, start, a)
      case Running(p) => Run(s, epicId, p, b)
    decreases |b|
  {
    if b == [] {
      assert a + b == a;
    } else {
      var b' := b[..|b| - 1];
      assert (a + b)[..|a + b| - 1] == a + b';
      RunAppend(s, epicId, start, a, b');
    }
  }

  /** The pass over `steps[..i + 1]` of one type is the pass over `steps[..i]` and maybe one more step. */
  lemma TierStep(steps: seq<UploadStep>, kind: string, i: nat)
    requires i < |steps|
    ensures Tier(steps[..i + 1], kind) == Tier(steps[..i], kind) + if steps[i].kind == kind then [steps[i]] else []
  {
    assert steps[..i + 1][..i] == steps[..i];
  }

  lemma {:induction false} TierAppend(a: seq<UploadStep>, b: seq<UploadStep>, kind: string)
    ensures Tier(a + b, kind) == Tier(a, kind) + Tier(b, kind)
    decreases |b|
  {
    if b == [] {
      assert a + b == a;
    } else {
      var b' := b[..|b| - 1];
      assert (a + b)[..|a + b| - 1] == a + b';
      assert (a + b)[|a + b| - 1] == b[|b| - 1];
      TierAppend(a, b', kind);
    }
  }

  /** A run that has stopped stays stopped, whatever is scheduled after. */
  lemma StoppedStaysStopped(s: Settings, epicId: nat, start: Progress, a: seq<UploadStep>, b: seq<UploadStep>)
    requires Run(s, epicId, start, a).Stopped?
    ensures Run(s, epicId, start, a + b) == Run(s, epicId, start, a)
  {
    RunAppend(s, epicId, start, a, b);
  }

  /** A tier holds every step of its type, as often as the input does, and nothing else. */
  lemma {:induction false} TierMultiset(steps: seq<UploadStep>, kind: string, x: UploadStep)
    ensures multiset(Tier(steps, kind))[x] == if x.kind == kind then multiset(steps)[x] else 0
    decreases |steps|
  {
    if steps != [] {
      var init := steps[..|steps| - 1];
      assert steps == init + [steps[|steps| - 1]];
      TierMultiset(init, kind, x);
    }
  }

  /** The rank of a type in the pass order; steps of other types are never visited. */
  function Rank(kind: string): nat {
    if kind == FEATURE then 0 else if kind == USER_STORY then 1 else 2
  }

  /**
   * The passes visit exactly the Feature, User Story and Task steps, each as
   * often as it occurs; a step of any other type produces no call.
   */
  lemma ScheduleMultiset(steps: seq<UploadStep>, x: UploadStep)
    ensures multiset(Schedule(steps))[x]
         == if x.kind == FEATURE || x.kind == USER_STORY || x.kind == TASK then multiset(steps)[x] else 0
  {
    TierMultiset(steps, FEATURE, x);
    TierMultiset(steps, USER_STORY, x);
    TierMultiset(steps, TASK, x);
  }

  /** Every Feature is visited before every User Story, and every User Story before every Task. */
  lemma ScheduleSorted(steps: seq<UploadStep>)
    ensures var S := Schedule(steps);
      forall i, j :: 0 <= i < j < |S| ==> Rank(S[i].kind) <= Rank(S[j].kind)
  {
    var F, U, T := Tier(steps, FEATURE), Tier(steps, USER_STORY), Tier(steps, TASK);
    var S := Schedule(steps);
    forall i | 0 <= i < |S| ensures Rank(S[i].kind) == if i < |F| then 0 else if i < |F| + |U| then 1 else 2 {
      if i < |F| {
        assert S[i] == F[i];
      } else if i < |F| + |U| {
        assert S[i] == U[i - |F|];
      } else {
        assert S[i] == T[i - |F| - |U|];
      }
    }
  }

  // ---------------------------------------------------------------------------
  // The client
  // ---------------------------------------------------------------------------

  class DevOpsClient {
    const organization: string
    const project: string
    const pat: string
    /** The user-pass string whose base64 encoding is the client's Basic credential. */
    const credentials: string
    /** The remote end of every request. */
    const service: WorkItemService

    constructor (organization: string, project: string, pat: string, service: WorkItemService)
      ensures this.organization == organization && this.project == project && this.pat == pat
      ensures this.service == service && credentials == BasicCredentials(pat)
    {
      this.organization := organization;
      this.project := project;
      this.pat := pat;
      this.service := service;
      credentials := BasicCredentials(pat);
    }

    function Config(): Settings {
      Settings(organization, project, service.statusOf)
    }

    /** `create_work_item`: send the payload, raise on an error status, else return the id. */
    method CreateWorkItem(workItemType: string, fields: seq<Field>, parentId: Option<nat>) returns (r: Result<nat, UploadError>)
      requires service.Valid()
      modifies service
      ensures service.Valid()
      ensures (service.State(), r) ==
        CreateCall(service.statusOf, old(service.State()), Request(workItemType, PatchOps(organization, project, fields, parentId)))
    {
      var ops := PatchOps(organization, project, fields, parentId);
      var response := service.Patch(Request(workItemType, ops));
      if Raises(response.status) {
        return Err(HttpError(response.status));
      }
      return Ok(response.id.value);
    }

    /** The nested `create_item`: create one step's work item and record its id under the step's name. */
    method CreateItem(step: UploadStep, parentId: Option<nat>, created: map<string, nat>) returns (r: Result<map<string, nat>, UploadError>)
      requires service.Valid()
      modifies service
      ensures service.Valid()
      ensures match CreateStep(Config(), Progress(old(service.State()), created), step, parentId)
        case Running(p) => service.State() == p.remote && r == Ok(p.created)
        case Stopped(p, e) => service.State() == p.remote && r == Err(e)
    {
      var wi := CreateWorkItem(step.kind, ItemFields(project, step), parentId);
      if wi.Err? {
        return Err(wi.error);
      }
      return Ok(created[step.name := wi.value]);
    }

    /**
     * One of the three passes: visit every step of type `kind` in input order;
     * a Feature's parent is the Epic, any other step's parent is looked up by name
     * among the items created so far, and a missing or falsy id raises.
     */
    method CreatePass(kind: string, steps: seq<UploadStep>, epicId: nat, created: map<string, nat>)
      returns (r: Result<map<string, nat>, UploadError>)
      requires service.Valid()
      modifies service
      ensures service.Valid()
      ensures match Run(Config(), epicId, Progress(old(service.State()), created), Tier(steps, kind))
        case Running(p) => service.State() == p.remote && r == Ok(p.created)
        case Stopped(p, e) => service.State() == p.remote && r == Err(e)
    {
      ghost var start := Progress(service.State(), created);
      var current := created;
      for i := 0 to |steps|
        invariant service.Valid()
        invariant Run(Config(), epicId, start, Tier(steps[..i], kind)) == Running(Progress(service.State(), current))
      {
        TierStep(steps, kind, i);
        var step := steps[i];
        if step.kind == kind {
          ghost var done := Tier(steps[..i], kind);
          ghost var before := Progress(service.State(), current);
          assert (done + [step])[..|done|] == done;
          assert Run(Config(), epicId, start, Tier(steps[..i + 1], kind)) == Advance(Config(), epicId, before, step);
          var parentId := if kind == FEATURE then Some(epicId) else Lookup(current, step.parent);
          if kind != FEATURE && !Truthy(parentId) {
            PassStops(Config(), epicId, start, steps, kind, i);
            return Err(MissingParent(step.kind, step.name));
          }
          assert Advance(Config(), epicId, before, step) == CreateStep(Config(), before, step, parentId);
          var item := CreateItem(step, parentId, current);
          if item.Err? {
            PassStops(Config(), epicId, start, steps, kind, i);
            return Err(item.error);
          }
          current := item.value;
          assert CreateStep(Config(), before, step, parentId) == Running(Progress(service.State(), current));
        } else {
          assert Tier(steps[..i + 1], kind) == Tier(steps[..i], kind);
        }
      }
      assert steps[..|steps|] == steps;
      return Ok(current);
    }

    /** `create_structure_from_json`: the Epic, then Features, then User Stories, then Tasks. */
    method CreateStructureFromJson(data: UploadData) returns (r: Result<Structure, UploadError>)
      requires service.Valid()
      modifies service
      ensures service.Valid()
      ensures (service.State(), r) == Upload(Config(), old(service.State()), data)
    {
      var epic := CreateWorkItem(EPIC, EpicFields(project, data), None);
      if epic.Err? {
        return Err(epic.error);
      }
      var epicId := epic.value;
      var steps := data.steps;
      ghost var p0 := Progress(service.State(), map[]);
      ghost var features, stories, tasks := Tier(steps, FEATURE), Tier(steps, USER_STORY), Tier(steps, TASK);
      RunAppend(Config(), epicId, p0, features + stories, tasks);
      RunAppend(Config(), epicId, p0, features, stories);

      var created := CreatePass(FEATURE, steps, epicId, map[]);
      if created.Err? {
        return Err(created.error);
      }
      created := CreatePass(USER_STORY, steps, epicId, created.value);
      if created.Err? {
        return Err(created.error);
      }
      created := CreatePass(TASK, steps, epicId, created.value);
      if created.Err? {
        return Err(created.error);
      }
      return Ok(Structure(epicId, created.value));
    }
  }

  /** A pass that stops at step `i` stops the whole pass there. */
  lemma PassStops(s: Settings, epicId: nat, start: Progress, steps: seq<UploadStep>, kind: string, i: nat)
    requires i < |steps|
    requires Run(s, epicId, start, Tier(steps[..i + 1], kind)).Stopped?
    ensures Run(s, epicId, start, Tier(steps, kind)) == Run(s, epicId, start, Tier(steps[..i + 1], kind))
  {
    TierAppend(steps[..i + 1], steps[i + 1..], kind);
    assert steps[..i + 1] + steps[i + 1..] == steps;
    StoppedStaysStopped(s, epicId, start, Tier(steps[..i + 1], kind), Tier(steps[i + 1..], kind));
  }

  // ---------------------------------------------------------------------------
  // What the upload does, in closed form
  // ---------------------------------------------------------------------------

  /** The position of the last step named `name`, if any. */
  function LastNamed(items: seq<UploadStep>, name: string): (r: Option<nat>)
    ensures r.Some? ==> r.value < |items| && items[r.value].name == name
    ensures r.Some? ==> forall j :: r.value < j < |items| ==> items[j].name != name
    ensures r.None? ==> forall j :: 0 <= j < |items| ==> items[j].name != name
    decreases |items|
  {
    if items == [] then None
    else if items[|items| - 1].name == name then Some(|items| - 1)
    else LastNamed(items[..|items| - 1], name)
  }

  /**
   * The name -> id map after creating `items` in order when item k gets id
   * `base + k`: a later item with the same name overwrites an earlier one.
   */
  function CreatedMap(base: nat, items: seq<UploadStep>): map<string, nat>
    decreases |items|
  {
    if items == [] then map[]
    else CreatedMap(base, items[..|items| - 1])[items[|items| - 1].name := base + |items| - 1]
  }

  /** A name is mapped exactly when some item has it, and to the id of the last such item. */
  lemma {:induction false} CreatedMapLast(base: nat, items: seq<UploadStep>, name: string)
    ensures name in CreatedMap(base, items) <==> LastNamed(items, name).Some?
    ensures name in CreatedMap(base, items) ==> CreatedMap(base, items)[name] == base + LastNamed(items, name).value
    decreases |items|
  {
    if items != [] {
      CreatedMapLast(base, items[..|items| - 1], name);
    }
  }

  /** The parent id item k is created with when every earlier item succeeded. */
  function IdealParent(epicId: nat, base: nat, items: seq<UploadStep>, k: nat): Option<nat>
    requires k < |items|
  {
    ParentFor(epicId, CreatedMap(base, items[..k]), items[k])
  }

  predicate Resolves(epicId: nat, base: nat, items: seq<UploadStep>, k: nat)
    requires k < |items|
  {
    items[k].kind == FEATURE || Truthy(IdealParent(epicId, base, items, k))
  }

  /** Item k goes through: its parent resolves and its call (number `calls + k`) succeeds. */
  predicate ItemOk(s: Settings, epicId: nat, base: nat, calls: nat, items: seq<UploadStep>, k: nat)
    requires k < |items|
  {
    Resolves(epicId, base, items, k) && !Raises(s.statusOf(calls + k))
  }

  /** The requests of a run in which every item goes through. */
  function IdealRequests(s: Settings, epicId: nat, base: nat, items: seq<UploadStep>): (reqs: seq<Request>)
    ensures |reqs| == |items|
  {
    seq(|items|, k requires 0 <= k < |items| => ItemRequest(s, items[k], IdealParent(epicId, base, items, k)))
  }

  /** The first of `items[..n]` that does not go through. */
  function FirstFailure(s: Settings, epicId: nat, base: nat, calls: nat, items: seq<UploadStep>, n: nat): (r: Option<nat>)
    requires n <= |items|
    ensures r.Some? ==> r.value < n && !ItemOk(s, epicId, base, calls, items, r.value)
    ensures r.Some? ==> forall j :: 0 <= j < r.value ==> ItemOk(s, epicId, base, calls, items, j)
    ensures r.None? ==> forall j :: 0 <= j < n ==> ItemOk(s, epicId, base, calls, items, j)
  {
    if n == 0 then None
    else
      var earlier := FirstFailure(s, epicId, base, calls, items, n - 1);
      if earlier.Some? then earlier
      else if !ItemOk(s, epicId, base, calls, items, n - 1) then Some(n - 1)
      else None
  }

  /** Where a run stands after `items[..n]` when every one of them went through. */
  function IdealProgress(s: Settings, epicId: nat, log0: seq<Request>, base: nat, items: seq<UploadStep>, n: nat): Progress
    requires n <= |items|
  {
    Progress(Remote(log0 + IdealRequests(s, epicId, base, items)[..n], base + n), CreatedMap(base, items[..n]))
  }

  /** A run over `items[..n]`: the ideal requests, cut at the first item that does not go through. */
  function RunClosedForm(s: Settings, epicId: nat, log0: seq<Request>, base: nat, items: seq<UploadStep>, n: nat): Outcome
    requires n <= |items|
  {
    match FirstFailure(s, epicId, base, |log0|, items, n)
    case None => Running(IdealProgress(s, epicId, log0, base, items, n))
    case Some(k) =>
      var p := IdealProgress(s, epicId, log0, base, items, k);
      if !Resolves(epicId, base, items, k)
      then Stopped(p, MissingParent(items[k].kind, items[k].name))
      else Stopped(Progress(Remote(log0 + IdealRequests(s, epicId, base, items)[..k + 1], base + k), p.created),
                   HttpError(s.statusOf(|log0| + k)))
  }

  lemma CreatedMapStep(base: nat, items: seq<UploadStep>, n: nat)
    requires 0 < n <= |items|
    ensures CreatedMap(base, items[..n]) == CreatedMap(base, items[..n - 1])[items[n - 1].name := base + n - 1]
  {
    assert items[..n][..n - 1] == items[..n - 1];
  }

  lemma IdealLogStep(log0: seq<Request>, reqs: seq<Request>, n: nat)
    requires 0 < n <= |reqs|
    ensures log0 + reqs[..n - 1] + [reqs[n - 1]] == log0 + reqs[..n]
  {
    assert reqs[..n - 1] + [reqs[n - 1]] == reqs[..n];
  }

  /** The first failure among `items[..n]` when `items[..n - 1]` all went through. */
  lemma FirstFailureStep(s: Settings, epicId: nat, base: nat, calls: nat, items: seq<UploadStep>, n: nat)
    requires 0 < n <= |items|
    requires FirstFailure(s, epicId, base, calls, items, n - 1).None?
    ensures FirstFailure(s, epicId, base, calls, items, n)
         == if ItemOk(s, epicId, base, calls, items, n - 1) then None else Some(n - 1)
  {
  }

  /** One more item after an all-successful prefix lands where the closed form says. */
  lemma AdvanceIdeal(s: Settings, epicId: nat, log0: seq<Request>, base: nat, items: seq<UploadStep>, n: nat)
    requires 0 < n <= |items|
    requires FirstFailure(s, epicId, base, |log0|, items, n - 1).None?
    ensures Advance(s, epicId, IdealProgress(s, epicId, log0, base, items, n - 1), items[n - 1])
         == RunClosedForm(s, epicId, log0, base, items, n)
  {
    FirstFailureStep(s, epicId, base, |log0|, items, n);
    var p := IdealProgress(s, epicId, log0, base, items, n - 1);
    var step := items[n - 1];
    var parentId := IdealParent(epicId, base, items, n - 1);
    assert ParentFor(epicId, p.created, step) == parentId;
    if !Resolves(epicId, base, items, n - 1) {
      assert Advance(s, epicId, p, step) == Stopped(p, MissingParent(step.kind, step.name));
    } else {
      assert Advance(s, epicId, p, step) == CreateStep(s, p, step, parentId);
      CreateIdeal(s, epicId, log0, base, items, n);
    }
  }

  lemma CreateIdeal(s: Settings, epicId: nat, log0: seq<Request>, base: nat, items: seq<UploadStep>, n: nat)
    requires 0 < n <= |items|
    requires FirstFailure(s, epicId, base, |log0|, items, n - 1).None?
    requires Resolves(epicId, base, items, n - 1)
    ensures CreateStep(s, IdealProgress(s, epicId, log0, base, items, n - 1), items[n - 1], IdealParent(epicId, base, items, n - 1))
         == RunClosedForm(s, epicId, log0, base, items, n)
  {
    FirstFailureStep(s, epicId, base, |log0|, items, n);
    var p := IdealProgress(s, epicId, log0, base, items, n - 1);
    var step := items[n - 1];
    var parentId := IdealParent(epicId, base, items, n - 1);
    var reqs := IdealRequests(s, epicId, base, items);
    assert ItemRequest(s, step, parentId) == reqs[n - 1];
    assert |p.remote.log| == |log0| + n - 1;
    if !Raises(s.statusOf(|log0| + n - 1)) {
      CreateIdealOk(s, p, reqs, log0, base, items, n);
      assert CreateStep(s, p, step, parentId) == Running(IdealProgress(s, epicId, log0, base, items, n));
      ClosedFormGoesThrough(s, epicId, log0, base, items, n);
    } else {
      CreateIdealFails(s, p, reqs, log0, base, items, n);
      var e := HttpError(s.statusOf(|log0| + n - 1));
      assert CreateStep(s, p, step, parentId) == Stopped(Progress(Remote(p.remote.log + [reqs[n - 1]], base + n - 1), p.created), e);
      ClosedFormStopsOnStatus(s, epicId, log0, base, items, n);
    }
  }

  lemma ClosedFormStaysStopped(s: Settings, epicId: nat, log0: seq<Request>, base: nat, items: seq<UploadStep>, n: nat)
    requires 0 < n <= |items| && FirstFailure(s, epicId, base, |log0|, items, n - 1).Some?
    ensures RunClosedForm(s, epicId, log0, base, items, n - 1).Stopped?
    ensures RunClosedForm(s, epicId, log0, base, items, n) == RunClosedForm(s, epicId, log0, base, items, n - 1)
  {
    assert FirstFailure(s, epicId, base, |log0|, items, n) == FirstFailure(s, epicId, base, |log0|, items, n - 1);
  }

  lemma ClosedFormGoesThrough(s: Settings, epicId: nat, log0: seq<Request>, base: nat, items: seq<UploadStep>, n: nat)
    requires n <= |items| && FirstFailure(s, epicId, base, |log0|, items, n).None?
    ensures RunClosedForm(s, epicId, log0, base, items, n) == Running(IdealProgress(s, epicId, log0, base, items, n))
  {
  }

  lemma ClosedFormStopsOnStatus(s: Settings, epicId: nat, log0: seq<Request>, base: nat, items: seq<UploadStep>, n: nat)
    requires 0 < n <= |items| && FirstFailure(s, epicId, base, |log0|, items, n) == Some(n - 1)
    requires Resolves(epicId, base, items, n - 1)
    ensures var p := IdealProgress(s, epicId, log0, base, items, n - 1);
      RunClosedForm(s, epicId, log0, base, items, n)
        == Stopped(Progress(Remote(p.remote.log + [IdealRequests(s, epicId, base, items)[n - 1]], base + n - 1), p.created),
                   HttpError(s.statusOf(|log0| + n - 1)))
  {
    var reqs := IdealRequests(s, epicId, base, items);
    SliceSnoc(reqs, n - 1);
    assert log0 + reqs[..n - 1] + [reqs[n - 1]] == log0 + reqs[..n];
  }

  lemma CreateIdealOk(s: Settings, p: Progress, reqs: seq<Request>, log0: seq<Request>, base: nat, items: seq<UploadStep>, n: nat)
    requires 0 < n <= |items| == |reqs|
    requires p == Progress(Remote(log0 + reqs[..n - 1], base + n - 1), CreatedMap(base, items[..n - 1]))
    requires !Raises(s.statusOf(|log0| + n - 1))
    ensures CreateCall(s.statusOf, p.remote, reqs[n - 1]) == (Remote(log0 + reqs[..n], base + n), Ok(base + n - 1))
    ensures p.created[items[n - 1].name := base + n - 1] == CreatedMap(base, items[..n])
  {
    IdealLogStep(log0, reqs, n);
    CreatedMapStep(base, items, n);
  }

  lemma CreateIdealFails(s: Settings, p: Progress, reqs: seq<Request>, log0: seq<Request>, base: nat, items: seq<UploadStep>, n: nat)
    requires 0 < n <= |items| == |reqs|
    requires p == Progress(Remote(log0 + reqs[..n - 1], base + n - 1), CreatedMap(base, items[..n - 1]))
    requires Raises(s.statusOf(|log0| + n - 1))
    ensures CreateCall(s.statusOf, p.remote, reqs[n - 1])
         == (Remote(p.remote.log + [reqs[n - 1]], base + n - 1), Err(HttpError(s.statusOf(|log0| + n - 1))))
  {
  }

  lemma {:induction false} RunIsClosedForm(s: Settings, epicId: nat, log0: seq<Request>, base: nat, items: seq<UploadStep>, n: nat)
    requires n <= |items|
    ensures Run(s, epicId, Progress(Remote(log0, base), map[]), items[..n]) == RunClosedForm(s, epicId, log0, base, items, n)
  {
    if n == 0 {
      assert items[..0] == [];
      assert log0 + IdealRequests(s, epicId, base, items)[..0] == log0;
    } else {
      var start := Progress(Remote(log0, base), map[]);
      assert items[..n][..n - 1] == items[..n - 1];
      var before := Run(s, epicId, start, items[..n - 1]);
      assert Run(s, epicId, start, items[..n])
          == if before.Stopped? then before else Advance(s, epicId, before.progress, items[n - 1]);
      RunIsClosedForm(s, epicId, log0, base, items, n - 1);
      if FirstFailure(s, epicId, base, |log0|, items, n - 1).None? {
        ClosedFormGoesThrough(s, epicId, log0, base, items, n - 1);
        AdvanceIdeal(s, epicId, log0, base, items, n);
      } else {
        ClosedFormStaysStopped(s, epicId, log0, base, items, n);
      }
    }
  }

  /** The whole sequence of requests an upload sends when nothing fails. */
  function IdealUpload(s: Settings, epicId: nat, epic: Request, items: seq<UploadStep>): (reqs: seq<Request>)
    ensures |reqs| == 1 + |items|
  {
    [epic] + IdealRequests(s, epicId, epicId + 1, items)
  }

  /**
   * The upload in closed form, for an Epic request and a schedule: the Epic call,
   * then the scheduled items' run in closed form.
   */
  function UploadClosedForm(s: Settings, remote: Remote, epic: Request, items: seq<UploadStep>): (Remote, Result<Structure, UploadError>) {
    var status := s.statusOf(|remote.log|);
    if Raises(status) then (Remote(remote.log + [epic], remote.nextId), Err(HttpError(status)))
    else Finish(remote.nextId, RunClosedForm(s, remote.nextId, remote.log + [epic], remote.nextId + 1, items, |items|))
  }

  lemma UploadIsClosedForm(s: Settings, remote: Remote, data: UploadData)
    ensures Upload(s, remote, data) == UploadClosedForm(s, remote, EpicRequest(s, data), Schedule(data.steps))
  {
    var S := Schedule(data.steps);
    var epic := EpicRequest(s, data);
    var log0 := remote.log + [epic];
    if !Raises(s.statusOf(|remote.log|)) {
      assert CreateCall(s.statusOf, remote, epic) == (Remote(log0, remote.nextId + 1), Ok(remote.nextId));
      assert S[..|S|] == S;
      RunIsClosedForm(s, remote.nextId, log0, remote.nextId + 1, S, |S|);
    }
  }

  lemma SliceSnoc<T>(xs: seq<T>, k: nat)
    requires k < |xs|
    ensures xs[..k] + [xs[k]] == xs[..k + 1]
  {
  }

  lemma IdealPrefix(log: seq<Request>, epic: Request, reqs: seq<Request>, after: seq<Request>, m: nat)
    requires m <= |reqs| && after == log + [epic] + reqs[..m]
    ensures |log| < |after| <= |log| + 1 + |reqs|
    ensures after == log + ([epic] + reqs)[..|after| - |log|]
  {
    assert ([epic] + reqs)[..m + 1] == [epic] + reqs[..m];
  }

  /** Every item of a run in which all of `items` go through. */
  predicate AllOk(s: Settings, epicId: nat, base: nat, calls: nat, items: seq<UploadStep>) {
    forall k :: 0 <= k < |items| ==> ItemOk(s, epicId, base, calls, items, k)
  }

  /** Calls `from` up to (not including) `to` all got a status that does not raise. */
  predicate CallsOk(statusOf: nat -> int, from: nat, to: nat) {
    forall i :: from <= i < to ==> !Raises(statusOf(i))
  }

  lemma CallsOkBefore(statusOf: nat -> int, from: nat, to: nat)
    requires from < to
    requires !Raises(statusOf(from)) && CallsOk(statusOf, from + 1, to)
    ensures CallsOk(statusOf, from, to)
  {
  }

  /** `log` is `log0` followed by the first of the ideal requests for `items[..n]`. */
  predicate SentPrefix(s: Settings, epicId: nat, log0: seq<Request>, base: nat, items: seq<UploadStep>, n: nat, log: seq<Request>) {
    && |log0| <= |log| <= |log0| + n <= |log0| + |items|
    && log == log0 + IdealRequests(s, epicId, base, items)[..|log| - |log0|]
  }

  /** What a run over `items[..n]` has sent: a prefix of the ideal requests. */
  lemma RunClosedFormPrefix(s: Settings, epicId: nat, log0: seq<Request>, base: nat, items: seq<UploadStep>, n: nat)
    requires n <= |items|
    ensures SentPrefix(s, epicId, log0, base, items, n, RunClosedForm(s, epicId, log0, base, items, n).progress.remote.log)
  {
    var reqs := IdealRequests(s, epicId, base, items);
    var f := FirstFailure(s, epicId, base, |log0|, items, n);
    if f.Some? && Resolves(epicId, base, items, f.value) {
      SliceSnoc(reqs, f.value);
    }
  }

  /**
   * A run over all of `items` is still running exactly when every item went
   * through, and then it has sent them all.
   */
  lemma RunClosedFormSent(s: Settings, epicId: nat, log0: seq<Request>, base: nat, items: seq<UploadStep>, o: Outcome)
    requires o == RunClosedForm(s, epicId, log0, base, items, |items|)
    ensures o.Running? <==> AllOk(s, epicId, base, |log0|, items)
    ensures o.Running? ==> o.progress == IdealProgress(s, epicId, log0, base, items, |items|)
  {
  }

  /** A status error is the answer to the run's last request; all earlier calls succeeded. */
  lemma RunClosedFormHttp(s: Settings, epicId: nat, log0: seq<Request>, base: nat, items: seq<UploadStep>, n: nat)
    requires n <= |items|
    ensures var o := RunClosedForm(s, epicId, log0, base, items, n);
      var log := o.progress.remote.log;
      o.Stopped? && o.error.HttpError? ==>
        && |log0| < |log|
        && o.error.status == s.statusOf(|log| - 1) && Raises(o.error.status)
        && CallsOk(s.statusOf, |log0|, |log| - 1)
  {
    var f := FirstFailure(s, epicId, base, |log0|, items, n);
    if f.Some? {
      var k := f.value;
      forall i | |log0| <= i < |log0| + k ensures !Raises(s.statusOf(i)) {
        assert ItemOk(s, epicId, base, |log0|, items, i - |log0|);
      }
    }
  }

  /**
   * When `o` stopped on a missing parent, it did so on item k, k being the number
   * of calls it made after the first `calls0`; item k is a User Story or Task
   * whose parent is not mapped (or mapped to 0) by the items before it, and all
   * those calls succeeded.
   */
  predicate StopsOnParent(s: Settings, calls0: nat, base: nat, items: seq<UploadStep>, n: nat, o: Outcome) {
    var log := o.progress.remote.log;
    var k := |log| - calls0;
    o.Stopped? && o.error.MissingParent? ==>
      && calls0 <= |log| < calls0 + n <= calls0 + |items|
      && items[k].kind != FEATURE
      && o.error == MissingParent(items[k].kind, items[k].name)
      && !Truthy(Lookup(CreatedMap(base, items[..k]), items[k].parent))
      && CallsOk(s.statusOf, calls0, |log|)
  }

  /**
   * A missing parent stops the run just before the call for the item that names
   * it, a User Story or Task whose parent is not mapped (or mapped to 0) yet.
   */
  lemma RunClosedFormMissing(s: Settings, epicId: nat, log0: seq<Request>, base: nat, items: seq<UploadStep>, n: nat)
    requires n <= |items|
    ensures StopsOnParent(s, |log0|, base, items, n, RunClosedForm(s, epicId, log0, base, items, n))
  {
    var f := FirstFailure(s, epicId, base, |log0|, items, n);
    if f.Some? {
      var k := f.value;
      forall i | |log0| <= i < |log0| + k ensures !Raises(s.statusOf(i)) {
        assert ItemOk(s, epicId, base, |log0|, items, i - |log0|);
      }
    }
  }

  /**
   * What an upload sends is always a non-empty prefix of the ideal request
   * sequence, appended to what the service had already received (nothing is
   * rolled back).
   */
  predicate SendsIdealPrefix(s: Settings, remote: Remote, epic: Request, items: seq<UploadStep>, after: Remote) {
    var ideal := IdealUpload(s, remote.nextId, epic, items);
    && |remote.log| < |after.log| <= |remote.log| + |ideal|
    && after.log == remote.log + ideal[..|after.log| - |remote.log|]
  }

  /**
   * An upload succeeds exactly when the Epic call and every scheduled item go
   * through; it then has sent the whole ideal sequence and returns the Epic's id
   * and the name -> id map of everything it created.
   */
  predicate SucceedsExactly(s: Settings, remote: Remote, epic: Request, items: seq<UploadStep>,
                            after: Remote, r: Result<Structure, UploadError>) {
    var id0 := remote.nextId;
    && (r.Ok? <==> !Raises(s.statusOf(|remote.log|)) && AllOk(s, id0, id0 + 1, |remote.log| + 1, items))
    && (r.Ok? ==>
         && after.log == remote.log + IdealUpload(s, id0, epic, items)
         && after.nextId == id0 + 1 + |items|
         && r.value == Structure(id0, CreatedMap(id0 + 1, items)))
  }

  /**
   * How an upload fails: an error status aborts at the call that got it,
   * which is the last one sent; an unresolved parent aborts before the step's own
   * call, and the step it names is the next scheduled one, of User Story or Task
   * type, whose parent name is not mapped (or is mapped to 0) at that moment.
   */
  predicate FailsAsDescribed(s: Settings, remote: Remote, items: seq<UploadStep>,
                             after: Remote, r: Result<Structure, UploadError>) {
    FailsOnStatus(s, remote, after, r) && FailsOnParent(s, remote, items, after, r)
  }

  predicate FailsOnStatus(s: Settings, remote: Remote, after: Remote, r: Result<Structure, UploadError>) {
    r.Err? && r.error.HttpError? ==>
      && |remote.log| < |after.log|
      && Raises(r.error.status)
      && r.error.status == s.statusOf(|after.log| - 1)
      && CallsOk(s.statusOf, |remote.log| + 1, |after.log| - 1)
  }

  predicate FailsOnParent(s: Settings, remote: Remote, items: seq<UploadStep>,
                          after: Remote, r: Result<Structure, UploadError>) {
    var id0 := remote.nextId;
    var k := |after.log| - |remote.log| - 1;
    r.Err? && r.error.MissingParent? ==>
      && 0 <= k < |items|
      && items[k].kind != FEATURE
      && r.error == MissingParent(items[k].kind, items[k].name)
      && !Truthy(Lookup(CreatedMap(id0 + 1, items[..k]), items[k].parent))
      && CallsOk(s.statusOf, |remote.log|, |after.log|)
  }

  /** The upload's result once the Epic call went through and the run ended in `o`. */
  function Finish(epicId: nat, o: Outcome): (Remote, Result<Structure, UploadError>) {
    match o
    case Running(p) => (p.remote, Ok(Structure(epicId, p.created)))
    case Stopped(p, e) => (p.remote, Err(e))
  }

  lemma ClosedFormAfterEpic(s: Settings, remote: Remote, epic: Request, items: seq<UploadStep>)
    requires !Raises(s.statusOf(|remote.log|))
    ensures UploadClosedForm(s, remote, epic, items)
         == Finish(remote.nextId, RunClosedForm(s, remote.nextId, remote.log + [epic], remote.nextId + 1, items, |items|))
  {
  }

  lemma ClosedFormSendsIdealPrefix(s: Settings, remote: Remote, epic: Request, items: seq<UploadStep>)
    ensures SendsIdealPrefix(s, remote, epic, items, UploadClosedForm(s, remote, epic, items).0)
  {
    if Raises(s.statusOf(|remote.log|)) {
      var ideal := IdealUpload(s, remote.nextId, epic, items);
      assert ideal[..1] == [epic];
    } else {
      ClosedFormAfterEpic(s, remote, epic, items);
      RunSendsIdealPrefix(s, remote, epic, items, RunClosedForm(s, remote.nextId, remote.log + [epic], remote.nextId + 1, items, |items|));
    }
  }

  lemma RunSendsIdealPrefix(s: Settings, remote: Remote, epic: Request, items: seq<UploadStep>, o: Outcome)
    requires o == RunClosedForm(s, remote.nextId, remote.log + [epic], remote.nextId + 1, items, |items|)
    ensures SendsIdealPrefix(s, remote, epic, items, Finish(remote.nextId, o).0)
  {
    var id0 := remote.nextId;
    var log0 := remote.log + [epic];
    RunClosedFormPrefix(s, id0, log0, id0 + 1, items, |items|);
    assert SentPrefix(s, remote.nextId, remote.log + [epic], remote.nextId + 1, items, |items|, o.progress.remote.log);
    SendsFromLog(s, remote, epic, items, o);
  }

  lemma SendsFromLog(s: Settings, remote: Remote, epic: Request, items: seq<UploadStep>, o: Outcome)
    requires SentPrefix(s, remote.nextId, remote.log + [epic], remote.nextId + 1, items, |items|, o.progress.remote.log)
    ensures SendsIdealPrefix(s, remote, epic, items, Finish(remote.nextId, o).0)
  {
    var after := o.progress.remote;
    assert Finish(remote.nextId, o).0 == after;
    var reqs := IdealRequests(s, remote.nextId, remote.nextId + 1, items);
    IdealPrefix(remote.log, epic, reqs, after.log, |after.log| - |remote.log| - 1);
  }

  lemma ClosedFormSucceedsExactly(s: Settings, remote: Remote, epic: Request, items: seq<UploadStep>)
    ensures var (after, r) := UploadClosedForm(s, remote, epic, items);
      SucceedsExactly(s, remote, epic, items, after, r)
  {
    if !Raises(s.statusOf(|remote.log|)) {
      ClosedFormAfterEpic(s, remote, epic, items);
      RunSucceedsExactly(s, remote, epic, items, RunClosedForm(s, remote.nextId, remote.log + [epic], remote.nextId + 1, items, |items|));
    }
  }

  lemma RunSucceedsExactly(s: Settings, remote: Remote, epic: Request, items: seq<UploadStep>, o: Outcome)
    requires !Raises(s.statusOf(|remote.log|))
    requires o == RunClosedForm(s, remote.nextId, remote.log + [epic], remote.nextId + 1, items, |items|)
    ensures var (after, r) := Finish(remote.nextId, o);
      SucceedsExactly(s, remote, epic, items, after, r)
  {
    RunClosedFormSent(s, remote.nextId, remote.log + [epic], remote.nextId + 1, items, o);
    SucceedsLifts(s, remote, epic, items, o);
  }

  /** A run after the Epic that is still running exactly when every item went through, and then is ideal, lets the upload succeed exactly. */
  lemma SucceedsLifts(s: Settings, remote: Remote, epic: Request, items: seq<UploadStep>, o: Outcome)
    requires !Raises(s.statusOf(|remote.log|))
    requires o.Running? <==> AllOk(s, remote.nextId, remote.nextId + 1, |remote.log + [epic]|, items)
    requires o.Running? ==> o.progress == IdealProgress(s, remote.nextId, remote.log + [epic], remote.nextId + 1, items, |items|)
    ensures var (after, r) := Finish(remote.nextId, o);
      SucceedsExactly(s, remote, epic, items, after, r)
  {
    var id0 := remote.nextId;
    assert |remote.log + [epic]| == |remote.log| + 1;
    if o.Running? {
      var reqs := IdealRequests(s, id0, id0 + 1, items);
      assert items[..|items|] == items;
      assert reqs[..|items|] == reqs;
      assert (remote.log + [epic]) + reqs == remote.log + IdealUpload(s, id0, epic, items);
    }
  }

  lemma ClosedFormFailsAsDescribed(s: Settings, remote: Remote, epic: Request, items: seq<UploadStep>)
    ensures var (after, r) := UploadClosedForm(s, remote, epic, items);
      FailsAsDescribed(s, remote, items, after, r)
  {
    if !Raises(s.statusOf(|remote.log|)) {
      ClosedFormAfterEpic(s, remote, epic, items);
      RunFailsAsDescribed(s, remote, epic, items, RunClosedForm(s, remote.nextId, remote.log + [epic], remote.nextId + 1, items, |items|));
    }
  }

  lemma RunFailsAsDescribed(s: Settings, remote: Remote, epic: Request, items: seq<UploadStep>, o: Outcome)
    requires !Raises(s.statusOf(|remote.log|))
    requires o == RunClosedForm(s, remote.nextId, remote.log + [epic], remote.nextId + 1, items, |items|)
    ensures var (after, r) := Finish(remote.nextId, o);
      FailsAsDescribed(s, remote, items, after, r)
  {
    RunFailsOnStatus(s, remote, epic, items, o);
    RunFailsOnParent(s, remote, epic, items, o);
  }

  lemma RunFailsOnStatus(s: Settings, remote: Remote, epic: Request, items: seq<UploadStep>, o: Outcome)
    requires o == RunClosedForm(s, remote.nextId, remote.log + [epic], remote.nextId + 1, items, |items|)
    ensures var (after, r) := Finish(remote.nextId, o);
      FailsOnStatus(s, remote, after, r)
  {
    var id0 := remote.nextId;
    var log0 := remote.log + [epic];
    RunClosedFormHttp(s, id0, log0, id0 + 1, items, |items|);
  }

  lemma RunFailsOnParent(s: Settings, remote: Remote, epic: Request, items: seq<UploadStep>, o: Outcome)
    requires !Raises(s.statusOf(|remote.log|))
    requires o == RunClosedForm(s, remote.nextId, remote.log + [epic], remote.nextId + 1, items, |items|)
    ensures var (after, r) := Finish(remote.nextId, o);
      FailsOnParent(s, remote, items, after, r)
  {
    var id0 := remote.nextId;
    var log0 := remote.log + [epic];
    RunClosedFormMissing(s, id0, log0, id0 + 1, items, |items|);
    ParentFailureLifts(s, remote, |log0|, items, o);
  }

  /** A run after the Epic that stops on a missing parent (as the closed form does) fails the upload as described. */
  lemma ParentFailureLifts(s: Settings, remote: Remote, calls0: nat, items: seq<UploadStep>, o: Outcome)
    requires calls0 == |remote.log| + 1 && !Raises(s.statusOf(|remote.log|))
    requires StopsOnParent(s, calls0, remote.nextId + 1, items, |items|, o)
    ensures var (after, r) := Finish(remote.nextId, o);
      FailsOnParent(s, remote, items, after, r)
  {
    if o.Stopped? && o.error.MissingParent? {
      CallsOkBefore(s.statusOf, |remote.log|, |o.progress.remote.log|);
    }
  }

  lemma UploadSendsIdealPrefix(s: Settings, remote: Remote, data: UploadData)
    ensures SendsIdealPrefix(s, remote, EpicRequest(s, data), Schedule(data.steps), Upload(s, remote, data).0)
  {
    UploadIsClosedForm(s, remote, data);
    ClosedFormSendsIdealPrefix(s, remote, EpicRequest(s, data), Schedule(data.steps));
  }

  lemma UploadSucceeds(s: Settings, remote: Remote, data: UploadData)
    ensures var (after, r) := Upload(s, remote, data);
      SucceedsExactly(s, remote, EpicRequest(s, data), Schedule(data.steps), after, r)
  {
    UploadIsClosedForm(s, remote, data);
    ClosedFormSucceedsExactly(s, remote, EpicRequest(s, data), Schedule(data.steps));
  }

  lemma UploadFailure(s: Settings, remote: Remote, data: UploadData)
    ensures var (after, r) := Upload(s, remote, data);
      FailsAsDescribed(s, remote, Schedule(data.steps), after, r)
  {
    UploadIsClosedForm(s, remote, data);
    ClosedFormFailsAsDescribed(s, remote, EpicRequest(s, data), Schedule(data.steps));
  }

  /**
   * The k-th ideal request creates a work item of the step's type with the step's
   * fields; its parent link names the Epic for a Feature and, for the other types,
   * the id recorded under the step's parent name so far (no link for a missing
   * name or id 0).
   */
  lemma IdealRequestShape(s: Settings, epicId: nat, base: nat, items: seq<UploadStep>, k: nat)
    requires k < |items|
    ensures var r := IdealRequests(s, epicId, base, items)[k];
      var parent := if items[k].kind == FEATURE then Some(epicId) else Lookup(CreatedMap(base, items[..k]), items[k].parent);
      && r.workItemType == items[k].kind
      && FieldsOf(r.ops) == ItemFields(s.project, items[k])
      && ParentOf(s.organization, s.project, r.ops) == (if Truthy(parent) then parent else None)
  {
    PatchOpsRoundTrip(s.organization, s.project, ItemFields(s.project, items[k]), IdealParent(epicId, base, items, k));
  }

  /** The Epic request sets title, area path and iteration path and links to no parent. */
  lemma EpicRequestShape(s: Settings, data: UploadData)
    ensures var r := EpicRequest(s, data);
      && r.workItemType == EPIC
      && FieldsOf(r.ops) == [Field(TITLE, Text(data.demand + " - " + data.name)),
                             Field(AREA_PATH, Text(s.project + "\\Digital Delivery Team")),
                             Field(ITERATION_PATH, Text(s.project + "\\" + s.project))]
      && ParentOf(s.organization, s.project, r.ops) == None
  {
    PatchOpsRoundTrip(s.organization, s.project, EpicFields(s.project, data), None);
  }

  /** Only a Task's work item carries an original estimate: its hours, or 0 when it has none. */
  lemma ItemFieldsEstimate(project: string, step: UploadStep)
    ensures var f := ItemFields(project, step);
      && f[..3] == [Field(TITLE, Text(step.name)),
                    Field(AREA_PATH, Text(project + "\\Digital Delivery Team")),
                    Field(ITERATION_PATH, Text(project + "\\" + project))]
      && (step.kind == TASK <==> |f| == 4)
      && (step.kind == TASK ==> f[3] == Field(ORIGINAL_ESTIMATE, Number(if step.hours.Some? then step.hours.value else 0.0)))
      && (forall i :: 0 <= i < |f| ==> (f[i].key == ORIGINAL_ESTIMATE <==> i == 3))
  {
  }

  /** With no steps, a successful Epic call is the whole upload: one request, nothing mapped. */
  lemma EmptyUpload(s: Settings, remote: Remote, data: UploadData)
    requires data.steps == [] && !Raises(s.statusOf(|remote.log|))
    ensures Upload(s, remote, data) == (Remote(remote.log + [EpicRequest(s, data)], remote.nextId + 1), Ok(Structure(remote.nextId, map[])))
  {
    assert Schedule(data.steps) == [];
  }

  /** The passes reorder Task, User Story, Feature into Feature, User Story, Task. */
  lemma ReorderExample(f: UploadStep, u: UploadStep, t: UploadStep)
    requires f.kind == FEATURE && u.kind == USER_STORY && t.kind == TASK
    ensures Schedule([t, u, f]) == [f, u, t]
  {
    assert [t, u, f][..2] == [t, u] && [t, u][..1] == [t] && [t][..0] == [];
    assert Tier([t], FEATURE) == [] && Tier([t, u], FEATURE) == [] && Tier([t, u, f], FEATURE) == [f];
    assert Tier([t], USER_STORY) == [] && Tier([t, u], USER_STORY) == [u] && Tier([t, u, f], USER_STORY) == [u];
    assert Tier([t], TASK) == [t] && Tier([t, u], TASK) == [t] && Tier([t, u, f], TASK) == [t];
  }

  /**
   * Input order does not matter: a Task listed before its User Story, listed
   * before its Feature, still gets the right parents when every call succeeds.
   */
  lemma ChildBeforeParentExample()
    ensures var f := UploadStep("Design", FEATURE, None, None);
      var u := UploadStep("Login", USER_STORY, Some("Design"), None);
      var t := UploadStep("Form", TASK, Some("Login"), Some(8.0));
      var s := Settings("org", "proj", n => 200);
      Upload(s, Remote([], 1), UploadData("D1", "Portal", [t, u, f])).1
        == Ok(Structure(1, map["Design" := 2, "Login" := 3, "Form" := 4]))
  {
    var f := UploadStep("Design", FEATURE, None, None);
    var u := UploadStep("Login", USER_STORY, Some("Design"), None);
    var t := UploadStep("Form", TASK, Some("Login"), Some(8.0));
    var s := Settings("org", "proj", n => 200);
    var data := UploadData("D1", "Portal", [t, u, f]);
    ReorderExample(f, u, t);
    ChainAllOk(s, f, u, t);
    UploadSucceeds(s, Remote([], 1), data);
  }

  lemma ChainAllOk(s: Settings, f: UploadStep, u: UploadStep, t: UploadStep)
    requires f.kind == FEATURE && u.kind == USER_STORY && t.kind == TASK
    requires u.parent == Some(f.name) && t.parent == Some(u.name) && f.name != u.name && t.name != u.name && t.name != f.name
    requires forall n :: s.statusOf(n) == 200
    ensures AllOk(s, 1, 2, 1, [f, u, t])
    ensures CreatedMap(2, [f, u, t]) == map[f.name := 2, u.name := 3, t.name := 4]
  {
    var S := [f, u, t];
    assert S[..0] == [] && S[..1] == [f] && S[..2] == [f, u] && S[..3] == S;
    assert [f, u][..1] == [f] && [f][..0] == [];
    assert CreatedMap(2, S[..1]) == map[f.name := 2];
    assert CreatedMap(2, S[..2]) == map[f.name := 2, u.name := 3];
    assert ItemOk(s, 1, 2, 1, S, 0);
    assert ItemOk(s, 1, 2, 1, S, 1);
    assert ItemOk(s, 1, 2, 1, S, 2);
  }
}
