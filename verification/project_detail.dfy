/** The pure parts of the project page (src/pages/ProjectDetail.tsx): which tab is
    shown, how a tab is selected and labelled, and the task list's state updates. */
module ProjectDetail {
  import opened Wrappers
  import opened Json
  import opened Types
  import Api
  import SearchParams

  // ---------------------------------------------------------------- tabs

  const Tabs: seq<string> := ["details", "tasks", "equipment", "marketing", "invoicing"]
  const DefaultTab: string := "details"

  /** The active tab: the `tab` query value when present and non-empty, else
      "details". The value is not checked against the tab list. */
  function ResolveTab(ps: SearchParams.Params): (tab: string)
    ensures tab != ""
    ensures tab == DefaultTab || SearchParams.Get(ps, "tab") == Some(tab)
    ensures SearchParams.Get(ps, "tab").Some? && SearchParams.Get(ps, "tab").value != "" ==>
      tab == SearchParams.Get(ps, "tab").value
  {
    var q := SearchParams.Get(ps, "tab");
    if q.Some? && q.value != "" then q.value else DefaultTab
  }

  /** `setTab(t)`: writes `tab=t` into the query, keeping the other parameters. */
  function SetTab(ps: SearchParams.Params, t: string): (r: SearchParams.Params)
    ensures SearchParams.Get(r, "tab") == Some(t)
    ensures SearchParams.Count(r, "tab") == 1
  {
    SearchParams.SetThenGet(ps, "tab", t);
    SearchParams.Set(ps, "tab", t)
  }

  /** Selecting a tab makes it the active one, and every other name reads as it
      did before. */
  lemma SetTabRoundTrip(ps: SearchParams.Params, t: string)
    requires t in Tabs
    ensures ResolveTab(SetTab(ps, t)) == t
    ensures forall other :: other != "tab" ==>
      SearchParams.Get(SetTab(ps, t), other) == SearchParams.Get(ps, other)
  {
    SearchParams.SetThenGet(ps, "tab", t);
  }

  /** `toUpperCase` on one character, for the ASCII letters the tab names use. */
  function UpperChar(c: char): char {
    if 'a' <= c <= 'z' then (c as int - 'a' as int + 'A' as int) as char else c
  }

  function LowerChar(c: char): char {
    if 'A' <= c <= 'Z' then (c as int - 'A' as int + 'a' as int) as char else c
  }

  /** A header label: the first character upper-cased, the rest unchanged. */
  function Label(t: string): (header: string)
    requires t != ""
    ensures |header| == |t|
    ensures header[0] == UpperChar(t[0]) && header[1..] == t[1..]
  {
    [UpperChar(t[0])] + t[1..]
  }

  /** Lower-casing the first character of a label gives the tab name back, since
      every tab name starts with a lower-case letter. */
  lemma LabelRoundTrip(t: string)
    requires t in Tabs
    ensures var header := Label(t); [LowerChar(header[0])] + header[1..] == t
  {
  }

  /** The five header labels as they appear on screen. */
  lemma TabLabels()
    ensures Label("details") == "Details" && Label("tasks") == "Tasks"
    ensures Label("equipment") == "Equipment" && Label("marketing") == "Marketing"
    ensures Label("invoicing") == "Invoicing"
  {
  }

  /** Which headers carry the `active` class: the one equal to the active tab. */
  function ActiveHeaders(tab: string): (active: seq<bool>)
    ensures |active| == |Tabs|
    ensures forall i :: 0 <= i < |Tabs| ==> (active[i] <==> Tabs[i] == tab)
  {
    seq(|Tabs|, i requires 0 <= i < |Tabs| => Tabs[i] == tab)
  }

  /** The panel rendered under the headers, if any. */
  datatype Panel = DetailsPanel | TasksPanel | EquipmentPanel | MarketingPanel | InvoicingPanel

  /** The panel of each tab, aligned with `Tabs`. */
  const Panels: seq<Panel> := [DetailsPanel, TasksPanel, EquipmentPanel, MarketingPanel, InvoicingPanel]

  function PanelFor(tab: string): (p: Option<Panel>)
    ensures p.Some? <==> tab in Tabs
    ensures forall i :: 0 <= i < |Tabs| && Tabs[i] == tab ==> p == Some(Panels[i])
  {
    if tab == "details" then Some(DetailsPanel)
    else if tab == "tasks" then Some(TasksPanel)
    else if tab == "equipment" then Some(EquipmentPanel)
    else if tab == "marketing" then Some(MarketingPanel)
    else if tab == "invoicing" then Some(InvoicingPanel)
    else None
  }

  /** An unknown tab value highlights no header and shows no panel; a known one
      highlights exactly its own header and shows a panel. */
  lemma UnknownTabShowsNothing(ps: SearchParams.Params)
    ensures var tab := ResolveTab(ps);
      && (tab !in Tabs ==> PanelFor(tab).None? && forall i :: 0 <= i < |Tabs| ==> !ActiveHeaders(tab)[i])
      && (tab in Tabs ==> PanelFor(tab).Some? && exists i :: 0 <= i < |Tabs| && ActiveHeaders(tab)[i])
  {
    var tab := ResolveTab(ps);
    if tab in Tabs {
      var i :| 0 <= i < |Tabs| && Tabs[i] == tab;
      assert ActiveHeaders(tab)[i];
    }
  }

  // ---------------------------------------------------------------- tasks

  /** The add-task form. */
  datatype TaskForm = TaskForm(title: string, stage: Stage, dueDate: string)

  const EmptyForm: TaskForm := TaskForm("", PreProduction, "")

  /** The tasks tab's state: the list, the last error text, the form. */
  datatype TasksState = TasksState(tasks: seq<Task>, err: Option<string>, form: TaskForm)

  /** The Add button is enabled only with a non-empty title. */
  predicate CanAdd(form: TaskForm) {
    form.title != ""
  }

  /** The status `toggle` asks for: "Open" for a done task, "Done" otherwise. */
  function NextStatus(s: TaskStatus): (n: TaskStatus)
    ensures n != s
  {
    if s == Done then Open else Done
  }

  /** Toggling twice restores the status. */
  lemma NextStatusInvolution(s: TaskStatus)
    ensures NextStatus(NextStatus(s)) == s
  {
  }

  function ProjectTasksPath(projectId: string): string {
    "/projects/" + projectId + "/tasks"
  }

  /** The request `toggle(t)` posts. */
  function ToggleRequest(c: Api.Client, projectId: string, t: Task): (r: Api.Request)
    ensures r.init.verb == "POST"
    ensures r.url == Api.Absolute(c.base, ProjectTasksPath(projectId) + "/" + t.id)
    ensures r.init == Api.BuildInit(c.codec, "POST", Some(Object1("status", JStr(StatusName(NextStatus(t.status))))))
    ensures r.init.body == Some(c.codec.stringify(Object1("status", JStr(StatusName(NextStatus(t.status))))))
  {
    Api.PostRequest(c, ProjectTasksPath(projectId) + "/" + t.id,
      Some(Object1("status", JStr(StatusName(NextStatus(t.status))))))
  }

  /** The body `addTask` posts: `{ title, stage, dueDate }` from the form, in that
      order, the stage by its wire name. */
  function AddBody(form: TaskForm): (b: Json)
    ensures b.JObj? && |b.fields| == 3
    ensures b.fields[0].0 == "title" && b.fields[1].0 == "stage" && b.fields[2].0 == "dueDate"
    ensures Property(b, "title") == Some(JStr(form.title))
    ensures Property(b, "stage") == Some(JStr(StageName(form.stage)))
    ensures Property(b, "dueDate") == Some(JStr(form.dueDate))
  {
    JObj([("title", JStr(form.title)), ("stage", JStr(StageName(form.stage))), ("dueDate", JStr(form.dueDate))])
  }

  /** The request `addTask` posts: the form's three fields to the project's tasks. */
  function AddRequest(c: Api.Client, projectId: string, form: TaskForm): (r: Api.Request)
    ensures r.url == Api.Absolute(c.base, ProjectTasksPath(projectId))
    ensures r.init == Api.BuildInit(c.codec, "POST", Some(AddBody(form)))
    ensures r.init.body == Some(c.codec.stringify(AddBody(form)))
  {
    Api.PostRequest(c, ProjectTasksPath(projectId), Some(AddBody(form)))
  }

  /** Clicking Add: the button is disabled while the title is empty, so only a
      non-empty title sends the request. */
  function ClickAdd(c: Api.Client, projectId: string, form: TaskForm): (r: Option<Api.Request>)
    ensures r.Some? <==> form.title != ""
    ensures r.Some? ==> r.value == AddRequest(c, projectId, form)
  {
    if CanAdd(form) then Some(AddRequest(c, projectId, form)) else None
  }

  /** `prev.map(x => x.id === id ? task : x)`. */
  function ReplaceById(tasks: seq<Task>, id: string, task: Task): (r: seq<Task>)
    ensures |r| == |tasks|
    ensures forall i :: 0 <= i < |tasks| && tasks[i].id != id ==> r[i] == tasks[i]
    ensures forall i :: 0 <= i < |tasks| && tasks[i].id == id ==> r[i] == task
  {
    seq(|tasks|, i requires 0 <= i < |tasks| => if tasks[i].id == id then task else tasks[i])
  }

  /** Ids are unique in the list. */
  ghost predicate UniqueIds(tasks: seq<Task>) {
    forall i, j :: 0 <= i < j < |tasks| ==> tasks[i].id != tasks[j].id
  }

  /** With unique ids, replacing by id is a single positional update; an id that is
      not present leaves the list unchanged. */
  lemma ReplaceByIdIsUpdate(tasks: seq<Task>, k: nat, task: Task)
    requires UniqueIds(tasks) && k < |tasks|
    ensures ReplaceById(tasks, tasks[k].id, task) == tasks[k := task]
  {
  }

  lemma ReplaceAbsentId(tasks: seq<Task>, id: string, task: Task)
    requires forall i :: 0 <= i < |tasks| ==> tasks[i].id != id
    ensures ReplaceById(tasks, id, task) == tasks
  {
  }

  /** The state update after `toggle(t)` settles: the returned task replaces the
      entries with `t`'s id; a failure only records its text. */
  function ApplyToggle(st: TasksState, t: Task, settled: Result<Task, string>): (r: TasksState)
    ensures settled.Success? ==> r == st.(tasks := ReplaceById(st.tasks, t.id, settled.value))
    ensures settled.Failure? ==> r == st.(err := Some(settled.error))
  {
    match settled
    case Success(task) => st.(tasks := ReplaceById(st.tasks, t.id, task))
    case Failure(e) => st.(err := Some(e))
  }

  /** The state update after `addTask` settles: the returned task goes in front of
      the old list and the form is reset; a failure only records its text and keeps
      the form. */
  function ApplyAdd(st: TasksState, settled: Result<Task, string>): (r: TasksState)
    ensures settled.Success? ==> |r.tasks| == |st.tasks| + 1 && r.tasks[0] == settled.value
    ensures settled.Success? ==> r.tasks[1..] == st.tasks && r.form == EmptyForm && r.err == st.err
    ensures settled.Failure? ==> r == st.(err := Some(settled.error))
  {
    match settled
    case Success(task) => st.(tasks := [task] + st.tasks, form := EmptyForm)
    case Failure(e) => st.(err := Some(e))
  }

  /** The state update after the initial load settles. */
  function ApplyLoad(st: TasksState, settled: Result<seq<Task>, string>): (r: TasksState)
    ensures settled.Success? ==> r == st.(tasks := settled.value)
    ensures settled.Failure? ==> r == st.(err := Some(settled.error))
  {
    match settled
    case Success(tasks) => st.(tasks := tasks)
    case Failure(e) => st.(err := Some(e))
  }

  /** `group(s)`: the tasks of one stage, in list order. */
  function Group(tasks: seq<Task>, s: Stage): (g: seq<Task>)
    ensures forall x :: x in g ==> x in tasks && x.stage == s
    ensures forall x :: x in tasks && x.stage == s ==> x in g
    ensures |g| <= |tasks|
  {
    if |tasks| == 0 then []
    else (if tasks[0].stage == s then [tasks[0]] else []) + Group(tasks[1..], s)
  }

  /** Grouping keeps list order: the group of a concatenation is the concatenation
      of the groups. */
  lemma {:induction false} GroupAppend(a: seq<Task>, b: seq<Task>, s: Stage)
    ensures Group(a + b, s) == Group(a, s) + Group(b, s)
    decreases |a|
  {
    if |a| == 0 {
      assert a + b == b;
    } else {
      assert (a + b)[1..] == a[1..] + b;
      GroupAppend(a[1..], b, s);
    }
  }

  /** The three rendered groups partition the task list: every task lands in the
      group of its stage, none is lost or repeated. */
  lemma {:induction false} GroupsPartition(tasks: seq<Task>)
    ensures multiset(Group(tasks, PreProduction)) + multiset(Group(tasks, Production))
          + multiset(Group(tasks, PostProduction)) == multiset(tasks)
    ensures |Group(tasks, PreProduction)| + |Group(tasks, Production)| + |Group(tasks, PostProduction)| == |tasks|
    decreases |tasks|
  {
    if |tasks| > 0 {
      var head, rest := [tasks[0]], tasks[1..];
      assert tasks == head + rest;
      GroupsPartition(rest);
      GroupAppend(head, rest, PreProduction);
      GroupAppend(head, rest, Production);
      GroupAppend(head, rest, PostProduction);
      SingleGroups(tasks[0]);
    }
  }

  /** A single task lands in exactly the group of its stage. */
  lemma SingleGroups(t: Task)
    ensures multiset(Group([t], PreProduction)) + multiset(Group([t], Production))
          + multiset(Group([t], PostProduction)) == multiset{t}
    ensures |Group([t], PreProduction)| + |Group([t], Production)| + |Group([t], PostProduction)| == 1
  {
    assert [t][1..] == [];
  }

  /** A successful add puts the new task at the head of its stage's group and leaves
      the other groups as they were. */
  lemma AddTaskGroups(st: TasksState, task: Task, s: Stage)
    ensures Group(ApplyAdd(st, Success(task)).tasks, s) ==
      (if task.stage == s then [task] else []) + Group(st.tasks, s)
  {
  }
}
