/**
 * The ecs_monitor service detail view: a header, a deployments section and
 * one table with a row per (task, container) pair, or one row for a task
 * without containers. Row keys are `task_<id>_<index>` (or `task_<id>`),
 * and the selection lookup parses them back.
 */
module TaskView {
  import opened Strings
  import opened Models

  /** `status[:4] if len(status) > 4 else status`. */
  function ShortStatus(status: string): (r: string)
    ensures |r| == if |status| > 4 then 4 else |status|
    ensures StartsWith(status, r)
  {
    if |status| > 4 then status[..4] else status
  }

  /** `_style_task_status`: the status cut to four characters, coloured by the full status. */
  function StyleTaskStatus(status: string): string {
    Styled(TaskStatusColour(status), ShortStatus(status))
  }

  /** `_style_health`: the health symbol in the health colour. */
  function StyleHealth(d: Display, h: HealthStatus): string {
    Styled(HealthColour(h), d.symbol(h))
  }

  /** The task-status colours: by the full status, whatever is shown of it. */
  lemma TaskStatusStyling(status: string)
    ensures status == "RUNNING" ==> StyleTaskStatus(status) == "[green]" + ShortStatus(status) + "[/green]"
    ensures status == "PENDING" ==> StyleTaskStatus(status) == "[yellow]" + ShortStatus(status) + "[/yellow]"
    ensures status == "STOPPED" ==> StyleTaskStatus(status) == "[red]" + ShortStatus(status) + "[/red]"
    ensures status != "RUNNING" && status != "PENDING" && status != "STOPPED" ==>
      StyleTaskStatus(status) == "[dim]" + ShortStatus(status) + "[/dim]"
  {
  }

  /** A running task shows as "RUNN"; a status of four characters or fewer shows whole. */
  lemma TaskStatusStylingExamples()
    ensures StyleTaskStatus("RUNNING") == "[green]RUNN[/green]"
    ensures StyleTaskStatus("RUN") == "[dim]RUN[/dim]"
  {
    assert ShortStatus("RUNNING") == "RUNN";
  }

  /** The shown status is never longer than four characters and is a prefix of the status. */
  lemma ShortStatusBound(status: string)
    ensures |ShortStatus(status)| <= 4
    ensures |status| <= 4 ==> ShortStatus(status) == status
  {
  }

  /** The health styling, written out. */
  lemma HealthStyling(d: Display)
    ensures StyleHealth(d, Healthy) == "[green]" + d.symbol(Healthy) + "[/green]"
    ensures StyleHealth(d, Unhealthy) == "[red]" + d.symbol(Unhealthy) + "[/red]"
    ensures StyleHealth(d, Warning) == "[yellow]" + d.symbol(Warning) + "[/yellow]"
    ensures StyleHealth(d, Unknown) == "[dim]" + d.symbol(Unknown) + "[/dim]"
  {
  }

  // ---------------------------------------------------------------------
  // Rows

  /** The entity behind a row: a task's `index`-th container, or a task without containers. */
  datatype Item =
    | ContainerRow(task: Task, index: nat, container: Container)
    | BareTaskRow(task: Task)

  function ItemKey(item: Item): string {
    match item
    case ContainerRow(t, i, _) => "task_" + t.id + "_" + NatToString(i)
    case BareTaskRow(t) => "task_" + t.id
  }

  /** The four task cells: short id, status, health and age. */
  function TaskCells(d: Display, t: Task): seq<string> {
    [d.shortId(t), StyleTaskStatus(t.status), StyleHealth(d, t.healthStatus), d.startedAgo(t)]
  }

  function ItemRow(d: Display, item: Item): Row {
    match item
    case ContainerRow(t, i, c) =>
      Row(ItemKey(item),
          (if i == 0 then TaskCells(d, t) else ["", "", "", ""])
          + [c.name, d.containerCpuDisplay(c), d.containerMemoryDisplay(c), StyleHealth(d, c.healthStatus)])
    case BareTaskRow(t) =>
      Row(ItemKey(item), TaskCells(d, t) + ["-", "-", "-", "-"])
  }

  function RowsOf(d: Display, items: seq<Item>): seq<Row> {
    seq(|items|, i requires 0 <= i < |items| => ItemRow(d, items[i]))
  }

  /** The first `k` container rows of task `t`. */
  function ContainerRows(t: Task, k: nat): (items: seq<Item>)
    requires k <= |t.containers|
    ensures |items| == k
    ensures forall i :: 0 <= i < k ==> items[i] == ContainerRow(t, i, t.containers[i])
  {
    seq(k, i requires 0 <= i < k => ContainerRow(t, i, t.containers[i]))
  }

  /** The rows of one task: one per container, or a single bare row. */
  function TaskItems(t: Task): seq<Item> {
    if t.containers == [] then [BareTaskRow(t)] else ContainerRows(t, |t.containers|)
  }

  function TasksItems(ts: seq<Task>): seq<Item>
    decreases |ts|
  {
    if ts == [] then [] else TasksItems(ts[..|ts| - 1]) + TaskItems(ts[|ts| - 1])
  }

  lemma RowsOfAppend(d: Display, a: seq<Item>, b: seq<Item>)
    ensures RowsOf(d, a + b) == RowsOf(d, a) + RowsOf(d, b)
  {
    var l, r := RowsOf(d, a + b), RowsOf(d, a) + RowsOf(d, b);
    assert |l| == |r|;
    forall i | 0 <= i < |l|
      ensures l[i] == r[i]
    {
      if i < |a| {
        assert (a + b)[i] == a[i];
      } else {
        assert (a + b)[i] == b[i - |a|];
      }
    }
  }

  /** One more container row extends the rows of the first `k` containers. */
  lemma ContainerRowsSnoc(d: Display, t: Task, k: nat)
    requires k < |t.containers|
    ensures RowsOf(d, ContainerRows(t, k + 1))
      == RowsOf(d, ContainerRows(t, k)) + [ItemRow(d, ContainerRow(t, k, t.containers[k]))]
  {
    assert ContainerRows(t, k + 1) == ContainerRows(t, k) + [ContainerRow(t, k, t.containers[k])];
    RowsOfAppend(d, ContainerRows(t, k), [ContainerRow(t, k, t.containers[k])]);
  }

  /** One more task extends the rows of the first `j` tasks by that task's rows. */
  lemma TasksRowsSnoc(d: Display, ts: seq<Task>, j: nat)
    requires j < |ts|
    ensures RowsOf(d, TasksItems(ts[..j + 1])) == RowsOf(d, TasksItems(ts[..j])) + RowsOf(d, TaskItems(ts[j]))
  {
    assert ts[..j + 1][..j] == ts[..j];
    assert TasksItems(ts[..j + 1]) == TasksItems(ts[..j]) + TaskItems(ts[j]);
    RowsOfAppend(d, TasksItems(ts[..j]), TaskItems(ts[j]));
  }

  /** The entities of the table `_update_table` fills; none for no service. */
  function ViewItems(service: Option<Service>): seq<Item> {
    if service.None? then [] else TasksItems(service.value.tasks)
  }

  function ViewRows(d: Display, service: Option<Service>): seq<Row> {
    RowsOf(d, ViewItems(service))
  }

  /**
   * The rows of one task: n >= 1 containers give n rows keyed by the
   * container index, the first carrying the task cells and the others
   * leaving them empty; no containers give one row with "-" for the
   * container cells.
   */
  lemma TaskRowsShape(d: Display, t: Task)
    ensures t.containers == [] ==>
      RowsOf(d, TaskItems(t)) == [Row("task_" + t.id, TaskCells(d, t) + ["-", "-", "-", "-"])]
    ensures t.containers != [] ==> |RowsOf(d, TaskItems(t))| == |t.containers|
    ensures t.containers != [] ==> forall i :: 0 <= i < |t.containers| ==>
      && RowsOf(d, TaskItems(t))[i].key == "task_" + t.id + "_" + NatToString(i)
      && RowsOf(d, TaskItems(t))[i].cells[4..] == [t.containers[i].name,
           d.containerCpuDisplay(t.containers[i]), d.containerMemoryDisplay(t.containers[i]),
           StyleHealth(d, t.containers[i].healthStatus)]
      && RowsOf(d, TaskItems(t))[i].cells[..4] == if i == 0 then TaskCells(d, t) else ["", "", "", ""]
  {
  }

  /** The keys of one task's rows are pairwise distinct. */
  lemma TaskRowKeysDistinct(t: Task, i: nat, j: nat)
    requires i < |t.containers| && j < |t.containers| && i != j
    ensures ItemKey(ContainerRow(t, i, t.containers[i])) != ItemKey(ContainerRow(t, j, t.containers[j]))
  {
    var p := "task_" + t.id + "_";
    if ItemKey(ContainerRow(t, i, t.containers[i])) == ItemKey(ContainerRow(t, j, t.containers[j])) {
      assert p + NatToString(i) == p + NatToString(j);
      assert (p + NatToString(i))[|p|..] == NatToString(i);
      assert (p + NatToString(j))[|p|..] == NatToString(j);
      DigitsValueOfNatToString(i);
      DigitsValueOfNatToString(j);
      assert false;
    }
  }

  /** Rows follow task order: the rows of two task lists in a row are the rows of each, in turn. */
  lemma {:induction false} TasksItemsAppend(a: seq<Task>, b: seq<Task>)
    ensures TasksItems(a + b) == TasksItems(a) + TasksItems(b)
    decreases |b|
  {
    if b == [] {
      assert a + b == a;
    } else {
      var b' := b[..|b| - 1];
      assert (a + b)[..|a + b| - 1] == a + b';
      assert (a + b)[|a + b| - 1] == b[|b| - 1];
      TasksItemsAppend(a, b');
      ConcatAssoc(TasksItems(a), TasksItems(b'), TaskItems(b[|b| - 1]));
    }
  }

  /** A row of the table belongs to one of the service's tasks, and names one of its containers or none. */
  predicate ItemOf(tasks: seq<Task>, item: Item) {
    && item.task in tasks
    && match item
       case ContainerRow(t, i, c) => i < |t.containers| && t.containers[i] == c
       case BareTaskRow(t) => t.containers == []
  }

  lemma {:induction false} TasksItemsSound(ts: seq<Task>)
    ensures forall item :: item in TasksItems(ts) ==> ItemOf(ts, item)
    decreases |ts|
  {
    if ts != [] {
      var init := ts[..|ts| - 1];
      var last := ts[|ts| - 1];
      TasksItemsSound(init);
      forall item | item in TasksItems(ts) ensures ItemOf(ts, item) {
        if item in TasksItems(init) {
          assert ItemOf(init, item);
        } else if last.containers != [] {
          var k :| 0 <= k < |last.containers| && TaskItems(last)[k] == item;
        }
      }
    }
  }

  lemma {:induction false} TasksItemsComplete(ts: seq<Task>)
    ensures forall t :: t in ts && t.containers == [] ==> BareTaskRow(t) in TasksItems(ts)
    ensures forall t, i :: t in ts && 0 <= i < |t.containers| ==>
      ContainerRow(t, i, t.containers[i]) in TasksItems(ts)
    decreases |ts|
  {
    if ts != [] {
      var init := ts[..|ts| - 1];
      var last := ts[|ts| - 1];
      TasksItemsComplete(init);
      forall t | t in ts && t.containers == [] ensures BareTaskRow(t) in TasksItems(ts) {
        if t != last { assert t in init; }
      }
      forall t, i | t in ts && 0 <= i < |t.containers|
        ensures ContainerRow(t, i, t.containers[i]) in TasksItems(ts)
      {
        if t == last {
          assert TaskItems(t)[i] == ContainerRow(t, i, t.containers[i]);
        } else {
          assert t in init;
        }
      }
    }
  }

  /**
   * The table holds exactly one row per (task, container) pair and one
   * row per task without containers; a missing service gives no rows.
   */
  lemma ViewItemsContents(s: Service)
    ensures ViewItems(None) == []
    ensures forall item :: item in ViewItems(Some(s)) ==> ItemOf(s.tasks, item)
    ensures forall t :: t in s.tasks && t.containers == [] ==> BareTaskRow(t) in ViewItems(Some(s))
    ensures forall t, i :: t in s.tasks && 0 <= i < |t.containers| ==>
      ContainerRow(t, i, t.containers[i]) in ViewItems(Some(s))
  {
    TasksItemsSound(s.tasks);
    TasksItemsComplete(s.tasks);
  }

  // ---------------------------------------------------------------------
  // Selection lookup (`get_selected_task_and_container`)

  datatype TaskSelection = TaskSelection(task: Option<Task>, container: Option<Container>)

  const NoSelection := TaskSelection(None, None)

  function ItemSelection(item: Item): TaskSelection {
    match item
    case ContainerRow(t, _, c) => TaskSelection(Some(t), Some(c))
    case BareTaskRow(t) => TaskSelection(Some(t), None)
  }

  /** The task id and container index a key carries, when it has at least two `_`-fields. */
  datatype ParsedKey = ParsedKey(taskId: string, index: Option<nat>)

  function ParseKey(key: string): (r: Option<ParsedKey>)
    ensures r.None? <==> '_' !in key
  {
    var parts := Split(key, '_', 2);
    if |parts| < 2 then
      assert '_' !in key by { assert parts == [key]; }
      None
    else
      Some(ParsedKey(parts[1],
        if |parts| > 2 && IsDigits(parts[2]) then Some(DigitsValue(parts[2])) else None))
  }

  /** The task test of the lookup loop: equal ids, or an id starting with the key's id. */
  predicate TaskMatches(t: Task, id: string) {
    t.id == id || StartsWith(t.id, id)
  }

  /** Task `k` matches `id` and no task before it does. */
  predicate IsFirstMatch(tasks: seq<Task>, id: string, k: int) {
    0 <= k < |tasks| && TaskMatches(tasks[k], id)
    && forall j :: 0 <= j < k ==> !TaskMatches(tasks[j], id)
  }

  /** The task the lookup loop stops at: the first one that matches. */
  function FirstMatchingTask(tasks: seq<Task>, id: string): (r: Option<Task>)
    ensures r.None? <==> forall k :: 0 <= k < |tasks| ==> !TaskMatches(tasks[k], id)
    ensures r.Some? ==> exists k :: IsFirstMatch(tasks, id, k) && r.value == tasks[k]
  {
    if tasks == [] then None
    else if TaskMatches(tasks[0], id) then
      assert IsFirstMatch(tasks, id, 0);
      Some(tasks[0])
    else
      var r := FirstMatchingTask(tasks[1..], id);
      assert forall k :: 1 <= k < |tasks| ==> tasks[k] == tasks[1..][k - 1];
      FirstMatchShift(tasks, id);
      r
  }

  /** Past a first task that does not match, the first match of the rest is the first match of all. */
  lemma FirstMatchShift(tasks: seq<Task>, id: string)
    requires tasks != [] && !TaskMatches(tasks[0], id)
    ensures forall k :: IsFirstMatch(tasks[1..], id, k) ==> IsFirstMatch(tasks, id, k + 1)
  {
    forall k | IsFirstMatch(tasks[1..], id, k) ensures IsFirstMatch(tasks, id, k + 1) {
      assert tasks[k + 1] == tasks[1..][k];
      forall j | 1 <= j < k + 1 ensures !TaskMatches(tasks[j], id) {
        assert tasks[j] == tasks[1..][j - 1];
      }
    }
  }

  /**
   * The lookup of a key in the service: nothing for a key without `_`;
   * otherwise the first matching task, and its container exactly when the
   * key carries an index below the task's container count.
   */
  function LookupKey(s: Service, key: string): (r: TaskSelection)
    ensures ParseKey(key).None? ==> r == NoSelection
    ensures ParseKey(key).Some? ==> r.task == FirstMatchingTask(s.tasks, ParseKey(key).value.taskId)
    ensures r.task.None? ==> r.container.None?
    ensures r.task.Some? ==> r.task.value in s.tasks
    ensures r.container.Some? ==> r.container.value in r.task.value.containers
    ensures r.task.Some? ==>
      var i := ParseKey(key).value.index;
      r.container == if i.Some? && i.value < |r.task.value.containers| then Some(r.task.value.containers[i.value]) else None
  {
    match ParseKey(key)
    case None => NoSelection
    case Some(p) =>
      match FirstMatchingTask(s.tasks, p.taskId)
      case None => NoSelection
      case Some(t) =>
        if p.index.Some? && p.index.value < |t.containers| then
          TaskSelection(Some(t), Some(t.containers[p.index.value]))
        else TaskSelection(Some(t), None)
  }

  /**
   * `get_selected_task_and_container` with the cursor on row `cursor`:
   * nothing without a service, and nothing when the cursor is past the
   * last row (the failed row lookup is caught).
   */
  function SelectedTaskAndContainer(service: Option<Service>, rows: seq<Row>, cursor: nat): (r: TaskSelection)
    ensures service.None? || cursor >= |rows| ==> r == NoSelection
  {
    if service.None? || cursor >= |rows| then NoSelection
    else LookupKey(service.value, rows[cursor].key)
  }

  /** No task answers the key's id: nothing is selected. */
  lemma LookupWithoutMatch(s: Service, key: string)
    requires '_' in key
    requires forall k :: 0 <= k < |s.tasks| ==> !TaskMatches(s.tasks[k], ParseKey(key).value.taskId)
    ensures LookupKey(s, key) == NoSelection
  {
  }

  /** The key's task id is matched by prefix: a later task is shadowed by an earlier one whose id extends its own. */
  lemma PrefixMatchPicksEarlierTask(a: Task, b: Task, rest: seq<Task>, dep: seq<Deployment>)
    requires a.id == "abc" && b.id == "ab" && b.containers == []
    ensures LookupKey(Service("svc", "ACTIVE", 1, 1, "td", dep, [a, b] + rest, None, None),
                      ItemKey(BareTaskRow(b))).task == Some(a)
  {
    var key := ItemKey(BareTaskRow(b));
    assert key == "task" + ['_'] + "ab";
    SplitAt("task", '_', "ab", 2);
    SplitWithoutSeparator("ab", '_', 1);
    assert ParseKey(key) == Some(ParsedKey("ab", None));
    var tasks := [a, b] + rest;
    assert tasks[0] == a;
    assert StartsWith(a.id, "ab");
    assert FirstMatchingTask(tasks, "ab") == Some(a);
  }

  /** Tasks whose ids a lookup cannot confuse: no `_` in any id, and no id extends a later id. */
  predicate DistinguishableIds(tasks: seq<Task>) {
    && (forall k :: 0 <= k < |tasks| ==> '_' !in tasks[k].id)
    && (forall j, k :: 0 <= j < k < |tasks| ==> !StartsWith(tasks[j].id, tasks[k].id))
  }

  lemma {:induction false} FirstMatchingTaskOwn(tasks: seq<Task>, k: nat)
    requires k < |tasks|
    requires forall j :: 0 <= j < k ==> !StartsWith(tasks[j].id, tasks[k].id)
    ensures FirstMatchingTask(tasks, tasks[k].id) == Some(tasks[k])
    decreases k
  {
    if k > 0 {
      assert !StartsWith(tasks[0].id, tasks[k].id);
      assert tasks[0].id != tasks[k].id;
      assert tasks[1..][k - 1] == tasks[k];
      forall j | 0 <= j < k - 1 ensures !StartsWith(tasks[1..][j].id, tasks[1..][k - 1].id) {
        assert tasks[1..][j] == tasks[j + 1];
      }
      FirstMatchingTaskOwn(tasks[1..], k - 1);
    }
  }

  lemma ContainerKeyParses(id: string, i: nat)
    requires '_' !in id
    ensures ParseKey("task_" + id + "_" + NatToString(i)) == Some(ParsedKey(id, Some(i)))
  {
    var digits := NatToString(i);
    assert "task_" + id + "_" + digits == "task" + ['_'] + (id + ['_'] + digits);
    SplitAt("task", '_', id + ['_'] + digits, 2);
    SplitAt(id, '_', digits, 1);
    DigitsValueOfNatToString(i);
  }

  lemma BareKeyParses(id: string)
    requires '_' !in id
    ensures ParseKey("task_" + id) == Some(ParsedKey(id, None))
  {
    assert "task_" + id == "task" + ['_'] + id;
    SplitAt("task", '_', id, 2);
  }

  /**
   * Key round trip: when the task ids are distinguishable, the lookup of
   * any row's key selects exactly that row's task and container.
   */
  lemma KeyRoundTrip(d: Display, s: Service, r: nat)
    requires DistinguishableIds(s.tasks)
    requires r < |ViewItems(Some(s))|
    ensures SelectedTaskAndContainer(Some(s), ViewRows(d, Some(s)), r) == ItemSelection(ViewItems(Some(s))[r])
  {
    var item := ViewItems(Some(s))[r];
    assert ViewRows(d, Some(s))[r].key == ItemKey(item);
    ViewItemsContents(s);
    assert ItemOf(s.tasks, item);
    var k :| 0 <= k < |s.tasks| && s.tasks[k] == item.task;
    FirstMatchingTaskOwn(s.tasks, k);
    match item
    case ContainerRow(t, i, c) =>
      ContainerKeyParses(t.id, i);
    case BareTaskRow(t) =>
      BareKeyParses(t.id);
  }

  // ---------------------------------------------------------------------
  // Header and deployments text

  /** `f"{s:<w}"`: `s` padded with spaces on the right to at least `w` characters. */
  function PadRight(s: string, w: nat): (r: string)
    ensures |r| == if |s| >= w then |s| else w
    ensures StartsWith(r, s)
    ensures forall i :: |s| <= i < |r| ==> r[i] == ' '
  {
    if |s| >= w then s else s + seq(w - |s|, _ => ' ')
  }

  const NoServiceText := "No service selected"

  /** The three lines of the header of a service. */
  function HeaderLines(s: Service): seq<string> {
    [ "[bold]Service: " + s.name + "[/bold]",
      "Status: " + s.status + "              " + "Desired: " + NatToString(s.desiredCount)
        + "   Running: " + NatToString(s.runningCount),
      "Task Definition: " + s.taskDefinition ]
  }

  /** `_update_header`'s text. */
  function HeaderText(service: Option<Service>): (r: string)
    ensures service.None? ==> r == NoServiceText
  {
    if service.None? then NoServiceText else JoinWith('\n', HeaderLines(service.value))
  }

  /** One line of the deployments section. */
  function DeploymentLine(d: Display, dep: Deployment): string {
    "  " + PadRight(dep.status, 10) + " - " + PadRight(d.deploymentDisplayStatus(dep), 14)
      + " - " + dep.taskDefinition
  }

  const DeploymentsHeading := "[bold]Deployments:[/bold]"

  function DeploymentsLines(d: Display, deps: seq<Deployment>): (lines: seq<string>)
    ensures |lines| == |deps| + 1 && lines[0] == DeploymentsHeading
    ensures forall i :: 0 <= i < |deps| ==> lines[i + 1] == DeploymentLine(d, deps[i])
  {
    [DeploymentsHeading] + seq(|deps|, i requires 0 <= i < |deps| => DeploymentLine(d, deps[i]))
  }

  /** `_update_deployments`'s text: empty without a service or without deployments. */
  function DeploymentsText(d: Display, service: Option<Service>): (r: string)
    ensures r == "" <==> service.None? || service.value.deployments == []
  {
    if service.None? || service.value.deployments == [] then ""
    else
      var lines := DeploymentsLines(d, service.value.deployments);
      assert |JoinWith('\n', lines)| >= |lines[0]| by { JoinWithPrefix('\n', lines); }
      JoinWith('\n', lines)
  }

  lemma JoinWithPrefix(sep: char, parts: seq<string>)
    requires parts != []
    ensures StartsWith(JoinWith(sep, parts), parts[0])
  {
  }

  /** The header splits back into its three lines when the fields hold no newline. */
  lemma HeaderLinesRecovered(s: Service)
    requires '\n' !in s.name && '\n' !in s.status && '\n' !in s.taskDefinition
    ensures Split(HeaderText(Some(s)), '\n', 2) == HeaderLines(s)
  {
    var lines := HeaderLines(s);
    assert '\n' !in NatToString(s.desiredCount) && '\n' !in NatToString(s.runningCount);
    assert forall i :: 0 <= i < |lines| ==> '\n' !in lines[i];
    SplitJoin('\n', lines, 2);
  }

  /** The deployments section splits back into the heading and one line per deployment. */
  lemma DeploymentLinesRecovered(d: Display, s: Service)
    requires s.deployments != []
    requires forall i :: 0 <= i < |s.deployments| ==> '\n' !in DeploymentLine(d, s.deployments[i])
    ensures Split(DeploymentsText(d, Some(s)), '\n', |s.deployments|) == DeploymentsLines(d, s.deployments)
  {
    var lines := DeploymentsLines(d, s.deployments);
    forall i | 0 <= i < |lines| ensures '\n' !in lines[i] {
      if i > 0 { assert lines[i] == DeploymentLine(d, s.deployments[i - 1]); }
    }
    SplitJoin('\n', lines, |s.deployments|);
  }

  // ---------------------------------------------------------------------
  // The widget

  /** The `ServiceDetailView` widget: its reactive service, header, deployments section and table. */
  class DetailView {
    const display: Display
    var service: Option<Service>
    var columnsReady: bool
    var header: string
    var deployments: string
    var rows: seq<Row>

    constructor (display: Display)
      ensures this.display == display
      ensures service.None? && !columnsReady && header == "" && deployments == "" && rows == []
    {
      this.display := display;
      service := None;
      columnsReady := false;
      header := "";
      deployments := "";
      rows := [];
    }

    /** `_update_header`. */
    method UpdateHeader()
      modifies this`header
      ensures header == if columnsReady then HeaderText(service) else old(header)
    {
      if columnsReady {
        header := HeaderText(service);
      }
    }

    /** `_update_deployments`. */
    method UpdateDeployments()
      modifies this`deployments
      ensures deployments == if columnsReady then DeploymentsText(display, service) else old(deployments)
    {
      if columnsReady {
        deployments := DeploymentsText(display, service);
      }
    }

    method AddRow(item: Item)
      modifies this`rows
      ensures rows == old(rows) + [ItemRow(display, item)]
    {
      rows := rows + [ItemRow(display, item)];
    }

    /** The rows of one task: the first container's row, then one row per further container. */
    method AddTaskRows(task: Task)
      modifies this`rows
      ensures rows == old(rows) + RowsOf(display, TaskItems(task))
    {
      var cs := task.containers;
      if cs != [] {
        AddRow(ContainerRow(task, 0, cs[0]));
        assert ContainerRows(task, 1) == [ContainerRow(task, 0, cs[0])];
        var k := 1;
        while k < |cs|
          invariant 1 <= k <= |cs|
          invariant rows == old(rows) + RowsOf(display, ContainerRows(task, k))
        {
          AddRow(ContainerRow(task, k, cs[k]));
          ContainerRowsSnoc(display, task, k);
          ConcatAssoc(old(rows), RowsOf(display, ContainerRows(task, k)), [ItemRow(display, ContainerRow(task, k, cs[k]))]);
          k := k + 1;
        }
      } else {
        AddRow(BareTaskRow(task));
      }
    }

    /** `_update_table`: a no-op before the columns exist; otherwise clear and refill. */
    method UpdateTable()
      modifies this`rows
      ensures rows == if columnsReady then ViewRows(display, service) else old(rows)
    {
      if !columnsReady {
        return;
      }
      rows := [];
      if service.None? {
        return;
      }
      var tasks := service.value.tasks;
      var i := 0;
      while i < |tasks|
        invariant 0 <= i <= |tasks|
        invariant rows == RowsOf(display, TasksItems(tasks[..i]))
      {
        AddTaskRows(tasks[i]);
        TasksRowsSnoc(display, tasks, i);
        i := i + 1;
      }
      assert tasks[..i] == tasks;
    }

    /** `on_mount`: the columns exist from now on; header, deployments and table are filled. */
    method OnMount()
      modifies this
      ensures columnsReady && service == old(service)
      ensures header == HeaderText(service)
      ensures deployments == DeploymentsText(display, service)
      ensures rows == ViewRows(display, service)
    {
      columnsReady := true;
      UpdateHeader();
      UpdateDeployments();
      UpdateTable();
    }

    /** Assigning the reactive `service`: `watch_service` runs only when the value changes. */
    method SetService(s: Option<Service>)
      modifies this
      ensures service == s && columnsReady == old(columnsReady)
      ensures header == if columnsReady && s != old(service) then HeaderText(s) else old(header)
      ensures deployments == if columnsReady && s != old(service) then DeploymentsText(display, s) else old(deployments)
      ensures rows == if columnsReady && s != old(service) then ViewRows(display, s) else old(rows)
    {
      if s != service {
        service := s;
        UpdateHeader();
        UpdateDeployments();
        UpdateTable();
      }
    }

    /** `get_selected_task_and_container` with the table's cursor on row `cursor`. */
    function GetSelectedTaskAndContainer(cursor: nat): TaskSelection
      reads this
    {
      SelectedTaskAndContainer(service, rows, cursor)
    }
  }
}
