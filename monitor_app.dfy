/**
 * The `ECSMonitorApp` of the ecs_monitor package (ecs_monitor/ui/app.py):
 * one configured cluster, refreshed by one tracked background worker, shown
 * either as the service list or as one service's detail.
 *
 * `MonitorFlow` states the transitions as functions on a `State` value and
 * proves what the application promises about them; `MonitorApp` is the
 * application object, whose methods update its fields step by step and are
 * proved to end in the state the transition function names.
 */
module MonitorFlow {
  import opened Strings
  import opened Models
  import Metrics
  import ServiceView
  import TaskView
  import ConsoleLink

  /** How the worker ended, as its `StateChanged` event reports it: SUCCESS with its result, or ERROR. */
  datatype Outcome = Success(result: Option<Cluster>) | Error

  /** What `#main-content` holds: nothing yet, a service list with its services, or a detail view with its service. */
  datatype Content = NoContent | ListShown(services: seq<Service>) | DetailShown(service: Service)

  /** The reactive fields, whether the tracked worker runs, and the mounted view. */
  datatype State = State(
    cluster: Option<Cluster>,
    selectedService: Option<Service>,
    loading: bool,
    insightsEnabled: bool,
    running: bool,
    content: Content)

  const Initial := State(None, None, true, false, false, NoContent)

  /**
   * The standing facts: loading exactly until a cluster arrived; a selected
   * service exactly while its detail view is mounted; a mounted list showing
   * the current cluster's services.
   */
  predicate Valid(s: State) {
    && (s.loading <==> s.cluster.None?)
    && (s.selectedService.Some? <==> s.content.DetailShown?)
    && (s.content.DetailShown? ==> s.selectedService == Some(s.content.service))
    && (s.content.ListShown? && s.cluster.Some? ==> s.content.services == s.cluster.value.services)
  }

  // ---------------------------------------------------------------------
  // Transitions

  /** `refresh_data`, also `action_refresh`: start the worker unless it runs. */
  function RefreshData(s: State): State {
    if s.running then s else s.(running := true)
  }

  /** `_periodic_refresh`: refresh once loading has finished. */
  function PeriodicRefresh(s: State): State {
    if !s.loading then RefreshData(s) else s
  }

  /** `_show_service_list`: clear the selection and mount a list of the cluster's services. */
  function ShowServiceList(s: State): State {
    s.(selectedService := None, content := ListShown(if s.cluster.Some? then s.cluster.value.services else []))
  }

  /** `_show_service_detail`, what selecting a service does. */
  function ShowServiceDetail(s: State, service: Service): State {
    s.(selectedService := Some(service), content := DetailShown(service))
  }

  /** `_update_service_list`: a mounted list gets the cluster's services; without one nothing happens. */
  function UpdateServiceList(s: State): State {
    if s.content.ListShown? && s.cluster.Some? then s.(content := ListShown(s.cluster.value.services)) else s
  }

  /** `_update_service_detail`: rebind the selection to the first service of the same name, if there is one. */
  function UpdateServiceDetail(s: State): State {
    if s.selectedService.None? || s.cluster.None? then s
    else
      match FirstServiceNamed(s.cluster.value.services, s.selectedService.value.name)
      case None => s
      case Some(service) =>
        s.(selectedService := Some(service),
           content := if s.content.DetailShown? then DetailShown(service) else s.content)
  }

  function UpdateCurrentView(s: State): State {
    if s.selectedService.Some? then UpdateServiceDetail(s) else UpdateServiceList(s)
  }

  /** `on_worker_state_changed` for the `refresh_data` worker. */
  function WorkerDone(s: State, outcome: Outcome): State {
    var s0 := s.(running := false);
    match outcome
    case Success(Some(c)) =>
      var s1 := s0.(cluster := Some(c));
      var s2 := if s1.loading then ShowServiceList(s1.(loading := false)) else s1;
      UpdateCurrentView(s2)
    case _ => s0
  }

  /** `action_go_back`, and what `TaskViewBack` does when something is selected. */
  function GoBack(s: State): State {
    if s.selectedService.Some? then ShowServiceList(s) else s
  }

  /** The application's flag after the worker's insights step: probed only while no cluster is loaded. */
  function WorkerInsights(s: State, probe: Metrics.Probe): bool {
    if s.cluster.None? then Metrics.ProbeEnabled(probe) else s.insightsEnabled
  }

  /** The fetcher's stored flag after the worker's insights step. */
  function CacheAfterCheck(s: State, cache: Option<bool>, probe: Metrics.Probe): Option<bool> {
    if s.cluster.None? then Some(Metrics.ProbeEnabled(probe)) else cache
  }

  /**
   * What `_fetch_cluster_data` returns: None when fetching the cluster
   * raised, else the cluster with its metrics (container metrics as the
   * fetcher's own flag says) and the application's flag.
   */
  function WorkerResult(d: Display, s: State, cache: Option<bool>, probe: Metrics.Probe, fetched: Option<Cluster>,
                        oracle: seq<Metrics.MetricQuery> -> Metrics.Response): Option<Cluster> {
    if fetched.None? then None
    else
      var enabled := Metrics.CachedInsights(CacheAfterCheck(s, cache, probe), probe);
      Some(Metrics.ClusterWithMetrics(d, fetched.value, enabled, oracle).(insightsEnabled := WorkerInsights(s, probe)))
  }

  /**
   * `action_copy_url`: nothing without a cluster. In the detail view the
   * container's, the task's or else the service's URL; in the list the
   * selected service's URL or else the cluster's. `detail` and `listed` are
   * what the mounted view answers, None when it cannot be asked.
   */
  function CopyUrl(s: State, clusterName: string, region: string,
                   detail: Option<TaskView.TaskSelection>, listed: Option<Option<Service>>): Option<string> {
    if s.cluster.None? then None
    else if s.selectedService.Some? then
      var serviceUrl := ConsoleLink.BuildServiceUrl(clusterName, s.selectedService.value.name, region);
      if detail.None? then Some(serviceUrl)
      else if detail.value.container.Some? && detail.value.task.Some? then
        Some(ConsoleLink.BuildContainerUrl(clusterName, detail.value.task.value.id, region))
      else if detail.value.task.Some? then Some(ConsoleLink.BuildTaskUrl(clusterName, detail.value.task.value.id, region))
      else Some(serviceUrl)
    else if listed.None? || listed.value.None? then Some(ConsoleLink.BuildClusterUrl(clusterName, region))
    else Some(ConsoleLink.BuildServiceUrl(clusterName, listed.value.value.name, region))
  }

  // ---------------------------------------------------------------------
  // Properties

  lemma InitialValid()
    ensures Valid(Initial) && Initial.loading && !Initial.running
  {
  }

  /** Requests, navigation and the worker's end keep the standing facts. */
  lemma TransitionsKeepValid(s: State, service: Service, outcome: Outcome)
    requires Valid(s)
    ensures Valid(RefreshData(s)) && Valid(PeriodicRefresh(s))
    ensures Valid(ShowServiceList(s)) && Valid(ShowServiceDetail(s, service)) && Valid(GoBack(s))
    ensures Valid(WorkerDone(s, outcome))
  {
  }

  /** A refresh while the worker runs starts nothing; the periodic refresh waits for the first load. */
  lemma SkipIfRunning(s: State)
    ensures s.running ==> RefreshData(s) == s
    ensures !s.running ==> RefreshData(s) == s.(running := true)
    ensures s.loading ==> PeriodicRefresh(s) == s
    ensures !s.loading ==> PeriodicRefresh(s) == RefreshData(s)
  {
  }

  /** A fetch that raised yields None; None and ERROR leave the cluster, the selection and the view alone. */
  lemma NoResultKeepsState(d: Display, s: State, cache: Option<bool>, probe: Metrics.Probe,
                           oracle: seq<Metrics.MetricQuery> -> Metrics.Response)
    ensures WorkerResult(d, s, cache, probe, None, oracle).None?
    ensures WorkerDone(s, Success(None)) == s.(running := false)
    ensures WorkerDone(s, Error) == s.(running := false)
  {
  }

  /** The first cluster ends the loading, clears the selection and mounts the list of its services. */
  lemma FirstResult(s: State, c: Cluster)
    requires s.loading
    ensures var r := WorkerDone(s, Success(Some(c)));
      !r.loading && r.cluster == Some(c) && r.selectedService.None? && r.content == ListShown(c.services) && !r.running
  {
  }

  /**
   * After a later refresh the selected service is the first new service of
   * the same name, or, when that name is gone, still the old object; without
   * a selection the mounted list shows the new services.
   */
  lemma LaterResult(s: State, c: Cluster)
    requires Valid(s) && !s.loading
    ensures var r := WorkerDone(s, Success(Some(c)));
      r.cluster == Some(c) && !r.loading
    ensures s.selectedService.Some? ==>
      var r := WorkerDone(s, Success(Some(c)));
      r.selectedService == (match FirstServiceNamed(c.services, s.selectedService.value.name)
                            case Some(n) => Some(n)
                            case None => s.selectedService)
      && r.content == DetailShown(r.selectedService.value)
    ensures s.selectedService.None? ==>
      var r := WorkerDone(s, Success(Some(c)));
      r.selectedService.None? && (s.content.ListShown? ==> r.content == ListShown(c.services))
  {
  }

  /** Selecting sets the selection and mounts its detail; back clears it; back with nothing selected does nothing, so back is idempotent. */
  lemma NavigationRules(s: State, service: Service)
    ensures ShowServiceDetail(s, service).selectedService == Some(service)
    ensures s.selectedService.Some? ==> GoBack(s).selectedService.None? && GoBack(s).content.ListShown?
    ensures s.selectedService.None? ==> GoBack(s) == s
    ensures GoBack(GoBack(s)) == GoBack(s)
  {
  }

  /** The insights probe runs only while no cluster is loaded; afterwards the flag is kept. */
  lemma InsightsBeforeFirstLoad(s: State, cache: Option<bool>, probe: Metrics.Probe)
    ensures s.cluster.Some? ==> WorkerInsights(s, probe) == s.insightsEnabled
    ensures s.cluster.Some? ==> CacheAfterCheck(s, cache, probe) == cache
    ensures s.cluster.None? ==>
      WorkerInsights(s, probe) == Metrics.ProbeEnabled(probe)
      && CacheAfterCheck(s, cache, probe) == Some(WorkerInsights(s, probe))
  {
  }

  /** Nothing is copied without a cluster; otherwise there is always a URL, and it names the configured cluster. */
  lemma CopyUrlChoice(s: State, clusterName: string, region: string,
                      detail: Option<TaskView.TaskSelection>, listed: Option<Option<Service>>)
    ensures CopyUrl(s, clusterName, region, detail, listed).None? <==> s.cluster.None?
    ensures s.cluster.Some? ==>
      Strings.StartsWith(CopyUrl(s, clusterName, region, detail, listed).value, ConsoleLink.ClusterPrefix(clusterName))
  {
    if s.cluster.Some? {
      var url := CopyUrl(s, clusterName, region, detail, listed).value;
      var rest := url[|ConsoleLink.ClusterPrefix(clusterName)|..];
      assert url == ConsoleLink.ClusterPrefix(clusterName) + rest;
    }
  }

  /** In the detail view, with the cursor on a row of the shown service, the URL is that row's container's or task's. */
  lemma CopyUrlOfTaskRow(s: State, clusterName: string, region: string, d: Display, r: nat)
    requires s.cluster.Some? && s.selectedService.Some?
    requires TaskView.DistinguishableIds(s.selectedService.value.tasks)
    requires r < |TaskView.ViewItems(s.selectedService)|
    ensures var sel := TaskView.SelectedTaskAndContainer(s.selectedService, TaskView.ViewRows(d, s.selectedService), r);
      CopyUrl(s, clusterName, region, Some(sel), None) ==
        match TaskView.ViewItems(s.selectedService)[r]
        case ContainerRow(t, _, _) => Some(ConsoleLink.BuildContainerUrl(clusterName, t.id, region))
        case BareTaskRow(t) => Some(ConsoleLink.BuildTaskUrl(clusterName, t.id, region))
  {
    TaskView.KeyRoundTrip(d, s.selectedService.value, r);
  }

  /** In the list view of distinctly named services, the URL is the service's under the cursor, or the cluster's past the end. */
  lemma CopyUrlOfServiceRow(s: State, clusterName: string, region: string, d: Display, services: seq<Service>, cursor: nat)
    requires s.cluster.Some? && s.selectedService.None?
    requires UniqueServiceNames(services)
    ensures var listed := ServiceView.SelectedService(services, ServiceView.ListRows(d, services), cursor);
      CopyUrl(s, clusterName, region, None, Some(listed)) ==
        if cursor < |services| then Some(ConsoleLink.BuildServiceUrl(clusterName, services[cursor].name, region))
        else Some(ConsoleLink.BuildClusterUrl(clusterName, region))
  {
    if cursor < |services| {
      FirstServiceNamedUnique(services, cursor);
    }
  }
}

/** The application object: its fields, and one method per handler. */
module MonitorApp {
  import opened Strings
  import opened Models
  import Metrics
  import TaskView
  import ConsoleLink
  import opened MonitorFlow

  class App {
    const clusterName: string   // the configured cluster's name
    const region: string
    const fetcher: Metrics.MetricsFetcher

    var cluster: Option<Cluster>
    var selectedService: Option<Service>
    var loading: bool
    var insightsEnabled: bool
    var running: bool
    var content: Content

    function State(): MonitorFlow.State
      reads this
    {
      MonitorFlow.State(cluster, selectedService, loading, insightsEnabled, running, content)
    }

    constructor (clusterName: string, region: string, fetcher: Metrics.MetricsFetcher)
      ensures State() == Initial
      ensures this.clusterName == clusterName && this.region == region && this.fetcher == fetcher
    {
      this.clusterName := clusterName;
      this.region := region;
      this.fetcher := fetcher;
      cluster := None;
      selectedService := None;
      loading := true;
      insightsEnabled := false;
      running := false;
      content := NoContent;
    }

    /** `on_mount`: the first refresh. */
    method OnMount()
      modifies this
      ensures State() == MonitorFlow.RefreshData(old(State()))
    {
      RefreshData();
    }

    method RefreshData()
      modifies this
      ensures State() == MonitorFlow.RefreshData(old(State()))
    {
      if running {
        return;
      }
      running := true;
    }

    method PeriodicRefresh()
      modifies this
      ensures State() == MonitorFlow.PeriodicRefresh(old(State()))
    {
      if !loading {
        RefreshData();
      }
    }

    method ShowServiceList()
      modifies this
      ensures State() == MonitorFlow.ShowServiceList(old(State()))
    {
      selectedService := None;
      content := ListShown([]);
      if cluster.Some? {
        content := ListShown(cluster.value.services);
      }
    }

    /** `_show_service_detail`, also `on_service_selected`. */
    method ShowServiceDetail(service: Service)
      modifies this
      ensures State() == MonitorFlow.ShowServiceDetail(old(State()), service)
    {
      selectedService := Some(service);
      content := DetailShown(service);
    }

    method UpdateServiceList()
      modifies this
      ensures State() == MonitorFlow.UpdateServiceList(old(State()))
    {
      if content.ListShown? && cluster.Some? {
        content := ListShown(cluster.value.services);
      }
    }

    /** `_update_service_detail`: the search over the new services for the selected name. */
    method UpdateServiceDetail()
      modifies this
      ensures State() == MonitorFlow.UpdateServiceDetail(old(State()))
    {
      if selectedService.None? || cluster.None? {
        return;
      }
      var services := cluster.value.services;
      var name := selectedService.value.name;
      var i := 0;
      while i < |services|
        invariant 0 <= i <= |services|
        invariant forall j :: 0 <= j < i ==> services[j].name != name
        invariant State() == old(State())
      {
        if services[i].name == name {
          FirstServiceNamedAt(services, name, i);
          selectedService := Some(services[i]);
          if content.DetailShown? {
            content := DetailShown(services[i]);
          }
          return;
        }
        i := i + 1;
      }
    }

    method UpdateCurrentView()
      modifies this
      ensures State() == MonitorFlow.UpdateCurrentView(old(State()))
    {
      if selectedService.Some? {
        UpdateServiceDetail();
      } else {
        UpdateServiceList();
      }
    }

    /** `on_worker_state_changed` for the `refresh_data` worker. */
    method OnWorkerStateChanged(outcome: Outcome)
      modifies this
      ensures State() == WorkerDone(old(State()), outcome)
    {
      running := false;
      if outcome.Success? && outcome.result.Some? {
        cluster := outcome.result;
        if loading {
          loading := false;
          ShowServiceList();
        }
        UpdateCurrentView();
      }
    }

    /** `action_go_back`. */
    method ActionGoBack()
      modifies this
      ensures State() == GoBack(old(State()))
    {
      if selectedService.Some? {
        ShowServiceList();
      }
    }

    /** `on_task_view_back`: the list, whatever was selected. */
    method OnTaskViewBack()
      modifies this
      ensures State() == MonitorFlow.ShowServiceList(old(State()))
    {
      ShowServiceList();
    }

    /**
     * `_fetch_cluster_data`: the insights probe while no cluster is loaded,
     * then the cluster (None when fetching it raised) and its metrics.
     * `probe` and `fetched` are the answers of the AWS calls.
     */
    method RunWorker(probe: Metrics.Probe, fetched: Option<Cluster>,
                     oracle: seq<Metrics.MetricQuery> -> Metrics.Response)
      returns (result: Option<Cluster>, checked: bool)
      modifies this`insightsEnabled, fetcher`insightsEnabled
      ensures checked <==> old(cluster).None?
      ensures insightsEnabled == WorkerInsights(old(State()), probe)
      ensures result == WorkerResult(fetcher.display, old(State()), old(fetcher.insightsEnabled), probe, fetched, oracle)
    {
      checked := cluster.None?;
      if cluster.None? {
        insightsEnabled := fetcher.CheckContainerInsights(probe);
      }
      if fetched.None? {
        result := None;
        return;
      }
      var updated, calls, probed := fetcher.FetchMetricsForCluster(fetched.value, probe, oracle);
      result := Some(updated.(insightsEnabled := insightsEnabled));
    }

    /** `action_copy_url`: the URL to copy, from what the mounted view answers. */
    method ActionCopyUrl(detail: Option<TaskView.TaskSelection>, listed: Option<Option<Service>>)
      returns (url: Option<string>)
      ensures url == CopyUrl(State(), clusterName, region, detail, listed)
    {
      if cluster.None? {
        return None;
      }
      if selectedService.Some? {
        if detail.Some? && detail.value.container.Some? && detail.value.task.Some? {
          url := Some(ConsoleLink.BuildContainerUrl(clusterName, detail.value.task.value.id, region));
        } else if detail.Some? && detail.value.task.Some? {
          url := Some(ConsoleLink.BuildTaskUrl(clusterName, detail.value.task.value.id, region));
        } else {
          url := Some(ConsoleLink.BuildServiceUrl(clusterName, selectedService.value.name, region));
        }
      } else {
        if listed.Some? && listed.value.Some? {
          url := Some(ConsoleLink.BuildServiceUrl(clusterName, listed.value.value.name, region));
        } else {
          url := Some(ConsoleLink.BuildClusterUrl(clusterName, region));
        }
      }
    }
  }
}
