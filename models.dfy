/**
 * The topology snapshot (cluster, services, deployments, tasks, containers),
 * the display helpers of the model classes, and the two shapes every view
 * shares: a data-table row and Rich colour markup.
 *
 * Only the fields the modelled code reads are kept. The display helpers
 * (`short_id`, `calculate_health`, `cpu_display`, ...) belong to model classes
 * whose source is not part of this model; they are uninterpreted here: a
 * `Display` value bundles one arbitrary function per helper, and every fact
 * proved about a view holds for all of them.
 */
module Models {
  import opened Strings

  datatype HealthStatus = Healthy | Unhealthy | Warning | Unknown

  datatype Container = Container(
    name: string,
    status: string,
    healthStatus: HealthStatus,
    cpuUsed: Option<real>,    // percentage of a vCPU; None means no data
    memoryUsed: Option<int>)  // MiB; None means no data

  datatype Task = Task(
    id: string,
    status: string,
    healthStatus: HealthStatus,
    containers: seq<Container>)

  datatype Deployment = Deployment(
    status: string,
    taskDefinition: string)

  datatype Service = Service(
    name: string,
    status: string,
    desiredCount: nat,
    runningCount: nat,
    taskDefinition: string,
    deployments: seq<Deployment>,
    tasks: seq<Task>,
    cpuUsed: Option<real>,     // percentage; None means no data
    memoryUsed: Option<real>)  // percentage; None means no data

  datatype Cluster = Cluster(
    name: string,
    status: string,
    region: string,
    activeServicesCount: nat,
    runningTasksCount: nat,
    pendingTasksCount: nat,
    registeredContainerInstancesCount: nat,
    services: seq<Service>,
    insightsEnabled: bool)

  /** The display properties of the model classes, uninterpreted. */
  datatype Display = Display(
    shortId: Task -> string,
    startedAgo: Task -> string,
    calculateHealth: Service -> HealthStatus,
    healthDisplay: Service -> string,
    tasksDisplay: Service -> string,
    serviceCpuDisplay: Service -> string,
    serviceMemoryDisplay: Service -> string,
    imageDisplay: Service -> string,
    deploymentStatus: Service -> string,
    containerCpuDisplay: Container -> string,
    containerMemoryDisplay: Container -> string,
    symbol: HealthStatus -> string,
    deploymentDisplayStatus: Deployment -> string)

  /** One row of a Textual `DataTable`: its key and its cells. */
  datatype Row = Row(key: string, cells: seq<string>)

  /** The Rich colour tags the views use. */
  datatype Colour = Green | Yellow | Red | Dim {
    /** The opening markup tag, `[colour]`. */
    function Open(): string {
      match this
      case Green => "[green]"
      case Yellow => "[yellow]"
      case Red => "[red]"
      case Dim => "[dim]"
    }

    /** The closing markup tag, `[/colour]`. */
    function Close(): string {
      match this
      case Green => "[/green]"
      case Yellow => "[/yellow]"
      case Red => "[/red]"
      case Dim => "[/dim]"
    }
  }

  /** `f"[{colour}]{text}[/{colour}]"`. */
  function Styled(colour: Colour, text: string): string {
    colour.Open() + text + colour.Close()
  }

  /** The markup keeps its text verbatim and tells its colour apart. */
  lemma StyledInjective(c1: Colour, t1: string, c2: Colour, t2: string)
    requires Styled(c1, t1) == Styled(c2, t2)
    ensures c1 == c2 && t1 == t2
  {
    var s := Styled(c1, t1);
    assert s[1] == c1.Open()[1];
    assert Styled(c2, t2)[1] == c2.Open()[1];
    assert c1 == c2;
    var open, close := c1.Open(), c1.Close();
    assert |t1| == |t2|;
    assert s[|open|..|open| + |t1|] == t1;
    assert s[|open|..|open| + |t2|] == t2;
  }

  /** The colour used for a health status (the same rule in every view). */
  function HealthColour(h: HealthStatus): Colour {
    match h
    case Healthy => Green
    case Unhealthy => Red
    case Warning => Yellow
    case Unknown => Dim
  }

  /** The colour used for a task status (the same rule in both task views). */
  function TaskStatusColour(status: string): Colour {
    if status == "RUNNING" then Green
    else if status == "PENDING" then Yellow
    else if status == "STOPPED" then Red
    else Dim
  }

  /** The ACTIVE-green, otherwise-yellow rule of service and container statuses. */
  function ActiveColour(status: string, active: string): Colour {
    if status == active then Green else Yellow
  }

  /** The first service called `name`, if any: the `for ... if service.name == name` searches. */
  function FirstServiceNamed(services: seq<Service>, name: string): (r: Option<Service>)
    ensures r.None? <==> forall i :: 0 <= i < |services| ==> services[i].name != name
    ensures r.Some? ==> exists i :: IsFirstNamed(services, name, i) && services[i] == r.value
  {
    if services == [] then None
    else if services[0].name == name then
      assert IsFirstNamed(services, name, 0);
      Some(services[0])
    else
      var r := FirstServiceNamed(services[1..], name);
      if r.Some? then
        var i :| IsFirstNamed(services[1..], name, i) && services[1..][i] == r.value;
        assert IsFirstNamed(services, name, i + 1);
        r
      else r
  }

  /** `services[i]` is the first service called `name`. */
  predicate IsFirstNamed(services: seq<Service>, name: string, i: int) {
    0 <= i < |services| && services[i].name == name
    && forall j :: 0 <= j < i ==> services[j].name != name
  }

  /** The search stops at the first service of the name it meets. */
  lemma {:induction false} FirstServiceNamedAt(services: seq<Service>, name: string, k: nat)
    requires IsFirstNamed(services, name, k)
    ensures FirstServiceNamed(services, name) == Some(services[k])
    decreases k
  {
    if k > 0 {
      assert services[0].name != name;
      assert services[1..][k - 1] == services[k];
      forall j | 0 <= j < k - 1 ensures services[1..][j].name != name {
        assert services[1..][j] == services[j + 1];
      }
      FirstServiceNamedAt(services[1..], name, k - 1);
    }
  }

  /** Service names are pairwise distinct. */
  predicate UniqueServiceNames(services: seq<Service>) {
    forall i, j :: 0 <= i < j < |services| ==> services[i].name != services[j].name
  }

  /** With distinct names, the first service named like `s` is `s`. */
  lemma FirstServiceNamedUnique(services: seq<Service>, k: nat)
    requires UniqueServiceNames(services) && k < |services|
    ensures FirstServiceNamed(services, services[k].name) == Some(services[k])
  {
    var r := FirstServiceNamed(services, services[k].name);
    var i :| IsFirstNamed(services, services[k].name, i) && services[i] == r.value;
    assert i == k;
  }
}
