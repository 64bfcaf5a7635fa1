/**
 * The grapes cluster detail view: one table holding, for each service, a
 * service row followed by its task rows, each task row followed by one row
 * per container when the task has more than one container. Row keys encode
 * the entity (`svc_<service>`, `task_<service>_<task>`,
 * `container_<service>_<task>_<container>`) and the selection lookup parses
 * them back.
 */
module ClusterDetailView {
  import opened Strings
  import opened Models

  const ServiceIcon: string := "\U{25A0} "
  const TaskBranch: string := "  \U{2514}\U{2500} "
  const ContainerBranch: string := "      \U{2514}\U{2500} "

  /** `_style_health_text`. */
  function StyleHealthText(health: HealthStatus, text: string): string {
    Styled(HealthColour(health), text)
  }

  /** `_style_health_symbol`. */
  function StyleHealthSymbol(d: Display, health: HealthStatus): string {
    Styled(HealthColour(health), d.symbol(health))
  }

  /** `_style_task_status`. */
  function StyleTaskStatus(status: string): string {
    Styled(TaskStatusColour(status), status)
  }

  /** The task-status colours, written out. */
  lemma TaskStatusStyling(status: string)
    ensures status == "RUNNING" ==> StyleTaskStatus(status) == "[green]" + status + "[/green]"
    ensures status == "PENDING" ==> StyleTaskStatus(status) == "[yellow]" + status + "[/yellow]"
    ensures status == "STOPPED" ==> StyleTaskStatus(status) == "[red]" + status + "[/red]"
    ensures status != "RUNNING" && status != "PENDING" && status != "STOPPED" ==>
      StyleTaskStatus(status) == "[dim]" + status + "[/dim]"
  {
  }

  /** The health colours, written out; the symbol is styled like the health text. */
  lemma HealthStyling(d: Display, text: string)
    ensures StyleHealthText(Healthy, text) == "[green]" + text + "[/green]"
    ensures StyleHealthText(Unhealthy, text) == "[red]" + text + "[/red]"
    ensures StyleHealthText(Warning, text) == "[yellow]" + text + "[/yellow]"
    ensures StyleHealthText(Unknown, text) == "[dim]" + text + "[/dim]"
    ensures forall h :: StyleHealthSymbol(d, h) == StyleHealthText(h, d.symbol(h))
  {
  }

  /** The entity a row of the table stands for. */
  datatype Item =
    | ServiceItem(service: Service)
    | TaskItem(service: Service, task: Task)
    | ContainerItem(service: Service, task: Task, container: Container)

  /** The row key given to each kind of row. */
  function ItemKey(item: Item): string {
    match item
    case ServiceItem(s) => "svc_" + s.name
    case TaskItem(s, t) => "task_" + s.name + "_" + t.id
    case ContainerItem(s, t, c) => "container_" + s.name + "_" + t.id + "_" + c.name
  }

  /** `_add_service_row`'s cells. */
  function ServiceCells(d: Display, s: Service): seq<string> {
    [ "[bold]" + ServiceIcon + s.name + "[/bold]",
      Styled(ActiveColour(s.status, "ACTIVE"), s.status),
      StyleHealthText(d.calculateHealth(s), d.healthDisplay(s)),
      d.tasksDisplay(s),
      d.serviceCpuDisplay(s),
      d.serviceMemoryDisplay(s),
      d.imageDisplay(s),
      "" ]
  }

  /** `_add_task_row`'s cells: a single container's usage is shown inline, otherwise "-". */
  function TaskCells(d: Display, t: Task): seq<string> {
    var single := |t.containers| == 1;
    [ TaskBranch + d.shortId(t),
      StyleTaskStatus(t.status),
      StyleHealthSymbol(d, t.healthStatus),
      "",
      if single then d.containerCpuDisplay(t.containers[0]) else "-",
      if single then d.containerMemoryDisplay(t.containers[0]) else "-",
      "",
      d.startedAgo(t) ]
  }

  /** `_add_container_row`'s cells. */
  function ContainerCells(d: Display, c: Container): seq<string> {
    [ ContainerBranch + c.name,
      Styled(ActiveColour(c.status, "RUNNING"), c.status),
      StyleHealthSymbol(d, c.healthStatus),
      "",
      d.containerCpuDisplay(c),
      d.containerMemoryDisplay(c),
      "",
      "" ]
  }

  function ItemRow(d: Display, item: Item): Row {
    match item
    case ServiceItem(s) => Row(ItemKey(item), ServiceCells(d, s))
    case TaskItem(_, t) => Row(ItemKey(item), TaskCells(d, t))
    case ContainerItem(_, _, c) => Row(ItemKey(item), ContainerCells(d, c))
  }

  function RowsOf(d: Display, items: seq<Item>): seq<Row> {
    seq(|items|, i requires 0 <= i < |items| => ItemRow(d, items[i]))
  }

  /** The container rows of task `t` for the containers `cs`, in order. */
  function ContainerItems(s: Service, t: Task, cs: seq<Container>): (items: seq<Item>)
    ensures |items| == |cs|
    ensures forall i :: 0 <= i < |cs| ==> items[i] == ContainerItem(s, t, cs[i])
  {
    seq(|cs|, i requires 0 <= i < |cs| => ContainerItem(s, t, cs[i]))
  }

  /** A task row, then its container rows when it has more than one container. */
  function TaskItems(s: Service, t: Task): seq<Item> {
    [TaskItem(s, t)] + (if |t.containers| > 1 then ContainerItems(s, t, t.containers) else [])
  }

  function TasksItems(s: Service, ts: seq<Task>): seq<Item>
    decreases |ts|
  {
    if ts == [] then [] else TasksItems(s, ts[..|ts| - 1]) + TaskItems(s, ts[|ts| - 1])
  }

  /** A service row, then the rows of its tasks. */
  function ServiceItems(s: Service): seq<Item> {
    [ServiceItem(s)] + TasksItems(s, s.tasks)
  }

  function ServicesItems(ss: seq<Service>): seq<Item>
    decreases |ss|
  {
    if ss == [] then [] else ServicesItems(ss[..|ss| - 1]) + ServiceItems(ss[|ss| - 1])
  }

  /** The entities of the table `_update_table` fills, row by row; none for no cluster. */
  function DetailItems(cluster: Option<Cluster>): seq<Item> {
    if cluster.None? then [] else ServicesItems(cluster.value.services)
  }

  /** The rows `_update_table` fills. */
  function DetailRows(d: Display, cluster: Option<Cluster>): seq<Row> {
    RowsOf(d, DetailItems(cluster))
  }

  /** A row's entity belongs to the services `ss`, and container rows only come from multi-container tasks. */
  predicate ItemIn(ss: seq<Service>, item: Item) {
    match item
    case ServiceItem(s) => s in ss
    case TaskItem(s, t) => s in ss && t in s.tasks
    case ContainerItem(s, t, c) => s in ss && t in s.tasks && |t.containers| > 1 && c in t.containers
  }

  lemma {:induction false} TasksItemsSound(s: Service, ts: seq<Task>)
    ensures forall item :: item in TasksItems(s, ts) ==>
      item.TaskItem? || item.ContainerItem?
    ensures forall item :: item in TasksItems(s, ts) ==>
      item.service == s && item.task in ts
      && (item.ContainerItem? ==> |item.task.containers| > 1 && item.container in item.task.containers)
    decreases |ts|
  {
    if ts != [] {
      var init := ts[..|ts| - 1];
      TasksItemsSound(s, init);
      forall item | item in TasksItems(s, ts)
        ensures item.TaskItem? || item.ContainerItem?
        ensures item.service == s && item.task in ts
        ensures item.ContainerItem? ==> |item.task.containers| > 1 && item.container in item.task.containers
      {
        if item in TasksItems(s, init) {
          assert item.task in init;
        } else {
          assert item in TaskItems(s, ts[|ts| - 1]);
          if item != TaskItem(s, ts[|ts| - 1]) {
            var cs := ts[|ts| - 1].containers;
            var k :| 0 <= k < |cs| && ContainerItems(s, ts[|ts| - 1], cs)[k] == item;
          }
        }
      }
    }
  }

  lemma {:induction false} ServicesItemsSound(ss: seq<Service>)
    ensures forall item :: item in ServicesItems(ss) ==> ItemIn(ss, item)
    decreases |ss|
  {
    if ss != [] {
      var init := ss[..|ss| - 1];
      var last := ss[|ss| - 1];
      ServicesItemsSound(init);
      TasksItemsSound(last, last.tasks);
      forall item | item in ServicesItems(ss) ensures ItemIn(ss, item) {
        if item in ServicesItems(init) {
          assert ItemIn(init, item);
        }
      }
    }
  }

  lemma {:induction false} TasksItemsComplete(s: Service, ts: seq<Task>)
    ensures forall t :: t in ts ==> TaskItem(s, t) in TasksItems(s, ts)
    ensures forall t, c :: t in ts && |t.containers| > 1 && c in t.containers ==>
      ContainerItem(s, t, c) in TasksItems(s, ts)
    decreases |ts|
  {
    if ts != [] {
      var init := ts[..|ts| - 1];
      var last := ts[|ts| - 1];
      TasksItemsComplete(s, init);
      assert TaskItem(s, last) in TaskItems(s, last);
      forall t, c | t in ts && |t.containers| > 1 && c in t.containers
        ensures ContainerItem(s, t, c) in TasksItems(s, ts)
      {
        if t == last {
          var k :| 0 <= k < |t.containers| && t.containers[k] == c;
          assert ContainerItems(s, t, t.containers)[k] == ContainerItem(s, t, c);
          assert ContainerItem(s, t, c) in TaskItems(s, last);
        } else {
          assert t in init;
        }
      }
      forall t | t in ts ensures TaskItem(s, t) in TasksItems(s, ts) {
        if t != last { assert t in init; }
      }
    }
  }

  lemma {:induction false} ServicesItemsComplete(ss: seq<Service>)
    ensures forall s :: s in ss ==> ServiceItem(s) in ServicesItems(ss)
    ensures forall s, t :: s in ss && t in s.tasks ==> TaskItem(s, t) in ServicesItems(ss)
    ensures forall s, t, c :: s in ss && t in s.tasks && |t.containers| > 1 && c in t.containers ==>
      ContainerItem(s, t, c) in ServicesItems(ss)
    decreases |ss|
  {
    if ss != [] {
      var init := ss[..|ss| - 1];
      var last := ss[|ss| - 1];
      ServicesItemsComplete(init);
      TasksItemsComplete(last, last.tasks);
      forall s | s in ss ensures ServiceItem(s) in ServicesItems(ss) {
        if s != last { assert s in init; }
      }
      forall s, t | s in ss && t in s.tasks ensures TaskItem(s, t) in ServicesItems(ss) {
        if s != last { assert s in init; }
      }
      forall s, t, c | s in ss && t in s.tasks && |t.containers| > 1 && c in t.containers
        ensures ContainerItem(s, t, c) in ServicesItems(ss)
      {
        if s != last { assert s in init; }
      }
    }
  }

  /**
   * The table holds exactly the cluster's services, their tasks, and the
   * containers of their multi-container tasks; a missing cluster gives an
   * empty table.
   */
  lemma DetailItemsContents(c: Cluster)
    ensures DetailItems(None) == []
    ensures forall item :: item in DetailItems(Some(c)) ==> ItemIn(c.services, item)
    ensures forall s :: s in c.services ==> ServiceItem(s) in DetailItems(Some(c))
    ensures forall s, t :: s in c.services && t in s.tasks ==> TaskItem(s, t) in DetailItems(Some(c))
    ensures forall s, t, ct :: s in c.services && t in s.tasks && |t.containers| > 1 && ct in t.containers ==>
      ContainerItem(s, t, ct) in DetailItems(Some(c))
  {
    ServicesItemsSound(c.services);
    ServicesItemsComplete(c.services);
  }

  // ---------------------------------------------------------------------
  // Selection lookup (`get_selected_item`)

  /** What `get_selected_item` returns: (service, task, container), each possibly None. */
  datatype Selection = Selection(service: Option<Service>, task: Option<Task>, container: Option<Container>)

  const NoSelection := Selection(None, None, None)

  function ItemSelection(item: Item): Selection {
    match item
    case ServiceItem(s) => Selection(Some(s), None, None)
    case TaskItem(s, t) => Selection(Some(s), Some(t), None)
    case ContainerItem(s, t, c) => Selection(Some(s), Some(t), Some(c))
  }

  /** The first task with id `id`. */
  function FirstTaskWithId(tasks: seq<Task>, id: string): Option<Task> {
    if tasks == [] then None
    else if tasks[0].id == id then Some(tasks[0])
    else FirstTaskWithId(tasks[1..], id)
  }

  /** The first container called `name`. */
  function FirstContainerNamed(containers: seq<Container>, name: string): Option<Container> {
    if containers == [] then None
    else if containers[0].name == name then Some(containers[0])
    else FirstContainerNamed(containers[1..], name)
  }

  /** The nested search for a task key: the first service called `name` holding a task with id `id`. */
  function FindServiceTask(services: seq<Service>, name: string, id: string): Selection {
    if services == [] then NoSelection
    else if services[0].name == name && FirstTaskWithId(services[0].tasks, id).Some? then
      Selection(Some(services[0]), FirstTaskWithId(services[0].tasks, id), None)
    else FindServiceTask(services[1..], name, id)
  }

  /** The container search within one service's tasks with id `id`. */
  function FindTaskContainer(s: Service, tasks: seq<Task>, id: string, name: string): Selection {
    if tasks == [] then NoSelection
    else if tasks[0].id == id && FirstContainerNamed(tasks[0].containers, name).Some? then
      Selection(Some(s), Some(tasks[0]), FirstContainerNamed(tasks[0].containers, name))
    else FindTaskContainer(s, tasks[1..], id, name)
  }

  /** The nested search for a container key. */
  function FindServiceTaskContainer(services: seq<Service>, name: string, id: string, cname: string): Selection {
    if services == [] then NoSelection
    else if services[0].name == name
      && FindTaskContainer(services[0], services[0].tasks, id, cname) != NoSelection then
      FindTaskContainer(services[0], services[0].tasks, id, cname)
    else FindServiceTaskContainer(services[1..], name, id, cname)
  }

  /** Parsing a row key back to the entity it names. */
  function LookupKey(c: Cluster, key: string): Selection {
    if StartsWith(key, "svc_") then
      match FirstServiceNamed(c.services, key[4..])
      case Some(s) => Selection(Some(s), None, None)
      case None => NoSelection
    else if StartsWith(key, "task_") then
      var parts := Split(key[5..], '_', 1);
      if |parts| == 2 then FindServiceTask(c.services, parts[0], parts[1]) else NoSelection
    else if StartsWith(key, "container_") then
      var parts := Split(key[10..], '_', 2);
      if |parts| == 3 then FindServiceTaskContainer(c.services, parts[0], parts[1], parts[2])
      else NoSelection
    else NoSelection
  }

  /**
   * `get_selected_item` for the cursor row `cursor` of `rows`: nothing for
   * no cluster, and nothing when the cursor is past the last row (the
   * lookup of a missing row raises and the handler answers
   * (None, None, None)).
   */
  function SelectedItem(cluster: Option<Cluster>, rows: seq<Row>, cursor: nat): (r: Selection)
    ensures cluster.None? || cursor >= |rows| ==> r == NoSelection
  {
    if cluster.None? then NoSelection
    else if cursor >= |rows| then NoSelection
    else LookupKey(cluster.value, rows[cursor].key)
  }

  /** An `svc_` key selects the first service whose name is the rest of the key. */
  lemma ServiceKeyLookup(c: Cluster, name: string)
    ensures LookupKey(c, "svc_" + name) ==
      match FirstServiceNamed(c.services, name)
      case Some(s) => Selection(Some(s), None, None)
      case None => NoSelection
  {
    assert ("svc_" + name)[4..] == name;
  }

  predicate UniqueTaskIds(tasks: seq<Task>) {
    forall i, j :: 0 <= i < j < |tasks| ==> tasks[i].id != tasks[j].id
  }

  predicate UniqueContainerNames(containers: seq<Container>) {
    forall i, j :: 0 <= i < j < |containers| ==> containers[i].name != containers[j].name
  }

  /** Names are unique at every level: services in the cluster, tasks in a service, containers in a task. */
  predicate WellNamed(c: Cluster) {
    && UniqueServiceNames(c.services)
    && (forall s :: s in c.services ==> UniqueTaskIds(s.tasks))
    && (forall s, t :: s in c.services && t in s.tasks ==> UniqueContainerNames(t.containers))
  }

  /** The split of a key into fields finds the names: no `_` in the fields before the last. */
  predicate KeyParsable(item: Item) {
    match item
    case ServiceItem(_) => true
    case TaskItem(s, _) => '_' !in s.name
    case ContainerItem(s, t, _) => '_' !in s.name && '_' !in t.id
  }

  lemma {:induction false} FirstTaskWithIdUnique(tasks: seq<Task>, k: nat)
    requires UniqueTaskIds(tasks) && k < |tasks|
    ensures FirstTaskWithId(tasks, tasks[k].id) == Some(tasks[k])
    decreases k
  {
    if k > 0 {
      assert tasks[0].id != tasks[k].id;
      assert tasks[1..][k - 1] == tasks[k];
      FirstTaskWithIdUnique(tasks[1..], k - 1);
    }
  }

  lemma {:induction false} FirstContainerNamedUnique(cs: seq<Container>, k: nat)
    requires UniqueContainerNames(cs) && k < |cs|
    ensures FirstContainerNamed(cs, cs[k].name) == Some(cs[k])
    decreases k
  {
    if k > 0 {
      assert cs[0].name != cs[k].name;
      assert cs[1..][k - 1] == cs[k];
      FirstContainerNamedUnique(cs[1..], k - 1);
    }
  }

  lemma {:induction false} FindServiceTaskUnique(ss: seq<Service>, k: nat, t: Task)
    requires UniqueServiceNames(ss) && k < |ss|
    requires t in ss[k].tasks && UniqueTaskIds(ss[k].tasks)
    ensures FindServiceTask(ss, ss[k].name, t.id) == Selection(Some(ss[k]), Some(t), None)
    decreases k
  {
    if k == 0 {
      var j :| 0 <= j < |ss[0].tasks| && ss[0].tasks[j] == t;
      FirstTaskWithIdUnique(ss[0].tasks, j);
    } else {
      assert ss[0].name != ss[k].name;
      assert ss[1..][k - 1] == ss[k];
      FindServiceTaskUnique(ss[1..], k - 1, t);
    }
  }

  lemma {:induction false} FindTaskContainerUnique(s: Service, ts: seq<Task>, j: nat, c: Container)
    requires UniqueTaskIds(ts) && j < |ts|
    requires c in ts[j].containers && UniqueContainerNames(ts[j].containers)
    ensures FindTaskContainer(s, ts, ts[j].id, c.name) == Selection(Some(s), Some(ts[j]), Some(c))
    decreases j
  {
    if j == 0 {
      var m :| 0 <= m < |ts[0].containers| && ts[0].containers[m] == c;
      FirstContainerNamedUnique(ts[0].containers, m);
    } else {
      assert ts[0].id != ts[j].id;
      assert ts[1..][j - 1] == ts[j];
      FindTaskContainerUnique(s, ts[1..], j - 1, c);
    }
  }

  lemma {:induction false} FindServiceTaskContainerUnique(ss: seq<Service>, k: nat, t: Task, c: Container)
    requires UniqueServiceNames(ss) && k < |ss|
    requires t in ss[k].tasks && UniqueTaskIds(ss[k].tasks)
    requires c in t.containers && UniqueContainerNames(t.containers)
    ensures FindServiceTaskContainer(ss, ss[k].name, t.id, c.name) == Selection(Some(ss[k]), Some(t), Some(c))
    decreases k
  {
    if k == 0 {
      var j :| 0 <= j < |ss[0].tasks| && ss[0].tasks[j] == t;
      FindTaskContainerUnique(ss[0], ss[0].tasks, j, c);
    } else {
      assert ss[0].name != ss[k].name;
      assert ss[1..][k - 1] == ss[k];
      FindServiceTaskContainerUnique(ss[1..], k - 1, t, c);
    }
  }

  lemma TaskKeyLookup(c: Cluster, k: nat, t: Task)
    requires UniqueServiceNames(c.services) && k < |c.services|
    requires t in c.services[k].tasks && UniqueTaskIds(c.services[k].tasks)
    requires '_' !in c.services[k].name
    ensures LookupKey(c, ItemKey(TaskItem(c.services[k], t))) == Selection(Some(c.services[k]), Some(t), None)
  {
    var s := c.services[k];
    var key := ItemKey(TaskItem(s, t));
    assert StartsWith(key, "task_");
    assert !StartsWith(key, "svc_") by { assert key[0] == 't'; }
    assert key[5..] == s.name + "_" + t.id;
    SplitAt(s.name, '_', t.id, 1);
    FindServiceTaskUnique(c.services, k, t);
  }

  /** A container key splits back into its service name, task id and container name. */
  lemma ContainerKeyParts(s: Service, t: Task, ct: Container)
    requires '_' !in s.name && '_' !in t.id
    ensures var key := ItemKey(ContainerItem(s, t, ct));
      && |key| >= 10 && key[..10] == "container_"
      && Split(key[10..], '_', 2) == [s.name, t.id, ct.name]
  {
    var key := ItemKey(ContainerItem(s, t, ct));
    var rest := t.id + "_" + ct.name;
    assert key == "container_" + (s.name + "_" + rest);
    assert key[10..] == s.name + "_" + rest;
    SplitThree(s.name, '_', t.id, ct.name);
  }

  lemma ContainerKeyLookup(c: Cluster, k: nat, t: Task, ct: Container)
    requires UniqueServiceNames(c.services) && k < |c.services|
    requires t in c.services[k].tasks && UniqueTaskIds(c.services[k].tasks)
    requires ct in t.containers && UniqueContainerNames(t.containers)
    requires '_' !in c.services[k].name && '_' !in t.id
    ensures LookupKey(c, ItemKey(ContainerItem(c.services[k], t, ct)))
      == Selection(Some(c.services[k]), Some(t), Some(ct))
  {
    var s := c.services[k];
    var key := ItemKey(ContainerItem(s, t, ct));
    ContainerKeyParts(s, t, ct);
    assert !StartsWith(key, "svc_") && !StartsWith(key, "task_") by { assert key[0] == 'c'; }
    ContainerKeyDispatch(c, key);
    FindServiceTaskContainerUnique(c.services, k, t, ct);
  }

  /** A `container_` key with three parts is looked up by service name, task id and container name. */
  lemma ContainerKeyDispatch(c: Cluster, key: string)
    requires !StartsWith(key, "svc_") && !StartsWith(key, "task_")
    requires |key| >= 10 && key[..10] == "container_" && |Split(key[10..], '_', 2)| == 3
    ensures var parts := Split(key[10..], '_', 2);
      LookupKey(c, key) == FindServiceTaskContainer(c.services, parts[0], parts[1], parts[2])
  {
    assert StartsWith(key, "container_");
  }

  /**
   * Key round trip: with unique names and no `_` in the fields a key splits
   * on, looking up the key of any row of the table selects exactly that
   * row's service, task and container.
   */
  lemma KeyRoundTrip(d: Display, c: Cluster, i: nat)
    requires WellNamed(c)
    requires i < |DetailItems(Some(c))| && KeyParsable(DetailItems(Some(c))[i])
    ensures SelectedItem(Some(c), DetailRows(d, Some(c)), i) == ItemSelection(DetailItems(Some(c))[i])
  {
    var item := DetailItems(Some(c))[i];
    assert DetailRows(d, Some(c))[i].key == ItemKey(item);
    DetailItemsContents(c);
    assert ItemIn(c.services, item);
    var k :| 0 <= k < |c.services| && c.services[k] == item.service;
    match item
    case ServiceItem(s) =>
      FirstServiceNamedUnique(c.services, k);
      ServiceKeyLookup(c, s.name);
    case TaskItem(s, t) =>
      TaskKeyLookup(c, k, t);
    case ContainerItem(s, t, ct) =>
      ContainerKeyLookup(c, k, t, ct);
  }

  lemma RowsOfAppend(d: Display, a: seq<Item>, b: seq<Item>)
    ensures RowsOf(d, a + b) == RowsOf(d, a) + RowsOf(d, b)
  {
    var l, r := RowsOf(d, a + b), RowsOf(d, a) + RowsOf(d, b);
    assert |l| == |r|;
    forall i | 0 <= i < |l|
      ensures l[i] == r[i]
    {
      if i < |a| {
        assert (a + b)[i] == a[i];
      } else {
        assert (a + b)[i] == b[i - |a|];
      }
    }
  }

  lemma TasksItemsSnoc(s: Service, ts: seq<Task>, j: nat)
    requires j < |ts|
    ensures TasksItems(s, ts[..j + 1]) == TasksItems(s, ts[..j]) + TaskItems(s, ts[j])
  {
    assert ts[..j + 1][..j] == ts[..j];
  }

  lemma TasksRowsSnoc(d: Display, s: Service, ts: seq<Task>, j: nat)
    requires j < |ts|
    ensures RowsOf(d, TasksItems(s, ts[..j + 1])) == RowsOf(d, TasksItems(s, ts[..j])) + RowsOf(d, TaskItems(s, ts[j]))
  {
    TasksItemsSnoc(s, ts, j);
    RowsOfAppend(d, TasksItems(s, ts[..j]), TaskItems(s, ts[j]));
  }

  lemma ServicesItemsSnoc(ss: seq<Service>, i: nat)
    requires i < |ss|
    ensures ServicesItems(ss[..i + 1]) == ServicesItems(ss[..i]) + ServiceItems(ss[i])
  {
    assert ss[..i + 1][..i] == ss[..i];
  }

  lemma ContainerItemsSnoc(s: Service, t: Task, cs: seq<Container>, k: nat)
    requires k < |cs|
    ensures ContainerItems(s, t, cs[..k + 1]) == ContainerItems(s, t, cs[..k]) + [ContainerItem(s, t, cs[k])]
  {
  }

  // ---------------------------------------------------------------------
  // The widget

  /** The `ClusterDetailView` widget: its reactive cluster and its table. */
  class DetailView {
    const display: Display
    var cluster: Option<Cluster>
    var columnsReady: bool
    var rows: seq<Row>

    constructor (display: Display)
      ensures this.display == display
      ensures cluster.None? && !columnsReady && rows == []
    {
      this.display := display;
      cluster := None;
      columnsReady := false;
      rows := [];
    }

    /** `on_mount`: the columns exist from now on, and the table is filled. */
    method OnMount()
      modifies this
      ensures columnsReady && cluster == old(cluster)
      ensures rows == DetailRows(display, cluster)
    {
      columnsReady := true;
      UpdateTable();
    }

    /** Assigning the reactive `cluster`: `watch_cluster` runs only when the value changes. */
    method SetCluster(c: Option<Cluster>)
      modifies this
      ensures cluster == c && columnsReady == old(columnsReady)
      ensures rows == if columnsReady && c != old(cluster) then DetailRows(display, c) else old(rows)
    {
      if c != cluster {
        cluster := c;
        UpdateTable();
      }
    }

    method AddRow(item: Item)
      modifies this`rows
      ensures rows == old(rows) + [ItemRow(display, item)]
    {
      rows := rows + [ItemRow(display, item)];
    }

    /** `_add_task_row`, then `_add_container_row` for each container of a multi-container task. */
    method AddTaskRows(service: Service, task: Task)
      modifies this`rows
      ensures rows == old(rows) + RowsOf(display, TaskItems(service, task))
    {
      AddRow(TaskItem(service, task));
      ghost var taskRow := RowsOf(display, [TaskItem(service, task)]);
      assert taskRow == [ItemRow(display, TaskItem(service, task))];
      if |task.containers| > 1 {
        ghost var start := rows;
        var k := 0;
        while k < |task.containers|
          invariant 0 <= k <= |task.containers|
          invariant rows == start + RowsOf(display, ContainerItems(service, task, task.containers[..k]))
        {
          var item := ContainerItem(service, task, task.containers[k]);
          ContainerItemsSnoc(service, task, task.containers, k);
          RowsOfAppend(display, ContainerItems(service, task, task.containers[..k]), [item]);
          assert RowsOf(display, [item]) == [ItemRow(display, item)];
          ConcatAssoc(start, RowsOf(display, ContainerItems(service, task, task.containers[..k])), [ItemRow(display, item)]);
          AddRow(item);
          k := k + 1;
        }
        assert task.containers[..k] == task.containers;
        RowsOfAppend(display, [TaskItem(service, task)], ContainerItems(service, task, task.containers));
        ConcatAssoc(old(rows), taskRow, RowsOf(display, ContainerItems(service, task, task.containers)));
      } else {
        assert TaskItems(service, task) == [TaskItem(service, task)];
      }
    }

    /** The rows of each of `service`'s tasks, in order. */
    method AddTasksRows(service: Service)
      modifies this`rows
      ensures rows == old(rows) + RowsOf(display, TasksItems(service, service.tasks))
    {
      var j := 0;
      while j < |service.tasks|
        invariant 0 <= j <= |service.tasks|
        invariant rows == old(rows) + RowsOf(display, TasksItems(service, service.tasks[..j]))
      {
        AddTaskRows(service, service.tasks[j]);
        TasksRowsSnoc(display, service, service.tasks, j);
        ConcatAssoc(old(rows), RowsOf(display, TasksItems(service, service.tasks[..j])), RowsOf(display, TaskItems(service, service.tasks[j])));
        j := j + 1;
      }
      assert service.tasks[..j] == service.tasks;
    }

    /** `_add_service_row`, then the rows of each of the service's tasks. */
    method AddServiceRows(service: Service)
      modifies this`rows
      ensures rows == old(rows) + RowsOf(display, ServiceItems(service))
    {
      AddRow(ServiceItem(service));
      AddTasksRows(service);
      RowsOfAppend(display, [ServiceItem(service)], TasksItems(service, service.tasks));
    }

    /** `_update_table`: a no-op before the columns exist; otherwise clear and refill. */
    method UpdateTable()
      modifies this`rows
      ensures rows == if columnsReady then DetailRows(display, cluster) else old(rows)
    {
      if !columnsReady {
        return;
      }
      rows := [];
      if cluster.None? {
        return;
      }
      var services := cluster.value.services;
      var i := 0;
      while i < |services|
        invariant 0 <= i <= |services|
        invariant rows == RowsOf(display, ServicesItems(services[..i]))
      {
        AddServiceRows(services[i]);
        ServicesItemsSnoc(services, i);
        RowsOfAppend(display, ServicesItems(services[..i]), ServiceItems(services[i]));
        i := i + 1;
      }
      assert services[..i] == services;
    }

    /** `get_selected_item` with the table's cursor on row `cursor`. */
    function GetSelectedItem(cursor: nat): Selection
      reads this
    {
      SelectedItem(cluster, rows, cursor)
    }
  }
}
