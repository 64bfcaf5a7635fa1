/**
 * The `ECSMonitorApp` of the grapes package (grapes/ui/app.py): a
 * cluster list on top, the selected cluster's detail below, one tracked
 * background worker that is either listing the clusters or refreshing the
 * selected cluster, and the focus moving between the two panels.
 *
 * `GrapesFlow` states every transition as a function on a `State` value
 * and proves what the application promises about them; `GrapesApp` is the
 * application object, whose methods update its fields step by step and
 * are proved to end in the state the transition function names.
 */
module GrapesFlow {
  import opened Strings
  import opened Models
  import Metrics
  import ClusterListView
  import ClusterDetailView
  import ConsoleLink

  datatype AppView = LoadingView | MainView
  datatype FocusPanel = ClustersPanel | DetailPanel

  /** The two worker bodies, by their worker names `fetch_clusters` and `refresh_data`. */
  datatype WorkerName = FetchClusters | RefreshData

  /** How a worker ended, as its `StateChanged` event reports it: SUCCESS with its result, or ERROR. */
  datatype Outcome<T> = Success(result: Option<T>) | Error

  /**
   * The application's reactive fields, whether a tracked worker runs (and
   * which), and what the application last pushed into its widgets and into
   * the AWS clients.
   */
  datatype State = State(
    currentView: AppView,
    focusPanel: FocusPanel,
    clusters: seq<Cluster>,
    selectedCluster: Option<Cluster>,
    loading: bool,
    insightsEnabled: bool,
    running: Option<WorkerName>,     // the tracked worker, while it runs
    listClusters: seq<Cluster>,      // `ClusterList.clusters`
    markedName: Option<string>,      // `ClusterList.selected_cluster_name`
    detailCluster: Option<Cluster>,  // `ClusterDetailView.cluster`
    clientCluster: Option<string>)   // the cluster name the AWS clients use

  /** The state before mounting: loading, nothing selected, no worker. */
  function Initial(configured: Option<string>): State {
    State(LoadingView, ClustersPanel, [], None, true, false, None, [], None, None, configured)
  }

  /** The application's standing facts: loading exactly while the loading view shows, and no marker or detail without a selection. */
  predicate Valid(s: State) {
    && (s.loading <==> s.currentView == LoadingView)
    && (s.markedName.Some? ==> s.selectedCluster.Some?)
    && (s.detailCluster.Some? ==> s.selectedCluster.Some?)
  }

  /** A configured cluster name counts only when it is a non-empty string. */
  predicate HasConfigured(configured: Option<string>) {
    configured.Some? && configured.value != ""
  }

  // ---------------------------------------------------------------------
  // Transitions

  /** `_fetch_cluster_list`: start the listing worker unless a worker runs. */
  function FetchClusterList(s: State): State {
    if s.running.Some? then s else s.(running := Some(FetchClusters))
  }

  /** `_fetch_cluster_data`: start the refresh worker for a selected cluster unless a worker runs. */
  function FetchClusterData(s: State): State {
    if s.selectedCluster.None? || s.running.Some? then s else s.(running := Some(RefreshData))
  }

  /** `action_refresh`: request the list, then the selected cluster's data. */
  function Refresh(s: State): State {
    var s1 := FetchClusterList(s);
    if s1.selectedCluster.Some? then FetchClusterData(s1) else s1
  }

  /** `_periodic_refresh`: the same requests, only once loaded and in the main view. */
  function PeriodicRefresh(s: State): State {
    if !s.loading && s.currentView == MainView then Refresh(s) else s
  }

  function FocusClusters(s: State): State {
    s.(focusPanel := ClustersPanel)
  }

  function FocusDetail(s: State): State {
    s.(focusPanel := DetailPanel)
  }

  /** `_select_cluster`: select, mark it in the list, point the clients at it, fetch its data, maybe focus the detail. */
  function SelectCluster(s: State, c: Cluster, changeFocus: bool): State {
    var s1 := s.(selectedCluster := Some(c), markedName := Some(c.name), clientCluster := Some(c.name));
    var s2 := FetchClusterData(s1);
    if changeFocus then FocusDetail(s2) else s2
  }

  /** `_deselect_cluster`: clear the selection, the marker and the detail, and focus the list. */
  function DeselectCluster(s: State): State {
    FocusClusters(s.(selectedCluster := None, markedName := None, detailCluster := None))
  }

  /** `action_go_back`: deselect from the detail panel; anything else does nothing. */
  function GoBack(s: State): State {
    if s.focusPanel == DetailPanel && s.selectedCluster.Some? then DeselectCluster(s) else s
  }

  /** `_fetch_clusters_worker`: the listing, or the empty list when listing raised (None). */
  function FetchClustersWorker(listed: Option<seq<Cluster>>): seq<Cluster> {
    if listed.None? then [] else listed.value
  }

  /** The initial-load choice: the configured cluster, the only cluster, or focus on the list. */
  function AutoSelect(s: State, configured: Option<string>): State {
    if HasConfigured(configured) then
      match ClusterListView.FirstClusterNamed(s.clusters, configured.value)
      case Some(c) => SelectCluster(s, c, true)
      case None => s
    else if |s.clusters| == 1 then SelectCluster(s, s.clusters[0], true)
    else FocusClusters(s)
  }

  /** `_handle_clusters_fetch_result`, after the listing worker ended. */
  function ClustersFetchResult(s: State, configured: Option<string>, outcome: Outcome<seq<Cluster>>): State {
    var s0 := s.(running := None);
    match outcome
    case Success(Some(cs)) =>
      var initial := s0.loading;
      var s1 := s0.(clusters := cs);
      var s2 := if s1.loading then s1.(loading := false, currentView := MainView) else s1;
      var s3 := s2.(listClusters := cs);
      if initial && s3.selectedCluster.None? then AutoSelect(s3, configured) else s3
    case _ => s0
  }

  /** `_handle_cluster_data_result`, after the refresh worker ended: fresh data replaces the selection and the detail. */
  function ClusterDataResult(s: State, outcome: Outcome<Cluster>): State {
    var s0 := s.(running := None);
    match outcome
    case Success(Some(c)) => s0.(selectedCluster := Some(c), detailCluster := Some(c))
    case _ => s0
  }

  /** What `_fetch_cluster_data_worker` returns: None when fetching the cluster raised, else the cluster with its metrics and the probe's answer. */
  function DataWorkerResult(d: Display, probe: Metrics.Probe, fetched: Option<Cluster>,
                            oracle: seq<Metrics.MetricQuery> -> Metrics.Response): Option<Cluster> {
    if fetched.None? then None
    else
      var enabled := Metrics.ProbeEnabled(probe);
      Some(Metrics.ClusterWithMetrics(d, fetched.value, enabled, oracle).(insightsEnabled := enabled))
  }

  /**
   * `action_open_console`: nothing without a selected cluster; otherwise the
   * URL for what the detail view selects, or the cluster's URL when the
   * detail view cannot be asked (`detail` is None).
   */
  function ConsoleUrl(s: State, region: string, detail: Option<ClusterDetailView.Selection>): Option<string> {
    if s.selectedCluster.None? then None
    else
      var name := s.selectedCluster.value.name;
      if detail.None? then Some(ConsoleLink.BuildClusterUrl(name, region))
      else
        var sel := detail.value;
        if sel.container.Some? && sel.task.Some? then Some(ConsoleLink.BuildContainerUrl(name, sel.task.value.id, region))
        else if sel.task.Some? then Some(ConsoleLink.BuildTaskUrl(name, sel.task.value.id, region))
        else if sel.service.Some? then Some(ConsoleLink.BuildServiceUrl(name, sel.service.value.name, region))
        else Some(ConsoleLink.BuildClusterUrl(name, region))
  }

  // ---------------------------------------------------------------------
  // Properties

  /** The initial state is valid. */
  lemma InitialValid(configured: Option<string>)
    ensures Valid(Initial(configured))
    ensures Initial(configured).loading && Initial(configured).running.None?
  {
  }

  /** The requests and the focus and selection changes keep the standing facts. */
  lemma RequestsKeepValid(s: State, c: Cluster, changeFocus: bool)
    requires Valid(s)
    ensures Valid(FetchClusterList(s)) && Valid(FetchClusterData(s))
    ensures Valid(Refresh(s)) && Valid(PeriodicRefresh(s))
    ensures Valid(SelectCluster(s, c, changeFocus)) && Valid(DeselectCluster(s)) && Valid(GoBack(s))
  {
  }

  /** The end of either worker keeps the standing facts. */
  lemma ResultsKeepValid(s: State, configured: Option<string>, listing: Outcome<seq<Cluster>>, data: Outcome<Cluster>)
    requires Valid(s)
    ensures Valid(ClustersFetchResult(s, configured, listing))
    ensures Valid(ClusterDataResult(s, data))
  {
    if listing.Success? && listing.result.Some? {
      var s3 := s.(running := None, clusters := listing.result.value, loading := false, currentView := MainView,
                   listClusters := listing.result.value);
      if s.loading && s.selectedCluster.None? {
        assert ClustersFetchResult(s, configured, listing) == AutoSelect(s3, configured);
        if HasConfigured(configured) && ClusterListView.FirstClusterNamed(s3.clusters, configured.value).Some? {
          RequestsKeepValid(s3, ClusterListView.FirstClusterNamed(s3.clusters, configured.value).value, true);
        } else if !HasConfigured(configured) && |s3.clusters| == 1 {
          RequestsKeepValid(s3, s3.clusters[0], true);
        }
      }
    }
  }

  /** A request made while the worker runs starts nothing; an idle request starts exactly its worker. */
  lemma SkipIfRunning(s: State)
    ensures s.running.Some? ==> FetchClusterList(s) == s && FetchClusterData(s) == s
    ensures s.selectedCluster.None? ==> FetchClusterData(s) == s
    ensures s.running.None? ==> FetchClusterList(s) == s.(running := Some(FetchClusters))
    ensures s.running.None? && s.selectedCluster.Some? ==> FetchClusterData(s) == s.(running := Some(RefreshData))
  {
  }

  /**
   * The periodic refresh does nothing while loading or outside the main
   * view, and is the manual refresh otherwise; a refresh always requests the
   * list. The equation `Refresh(s) == FetchClusterList(s)` is a fact of this
   * model, where the running worker is one field with no pending state: the
   * data request behind the list request then starts nothing. In Textual the
   * list worker is still pending at that point, so the data worker does
   * start, and as an exclusive worker it cancels the list worker.
   */
  lemma RefreshRules(s: State)
    ensures s.loading || s.currentView != MainView ==> PeriodicRefresh(s) == s
    ensures !s.loading && s.currentView == MainView ==> PeriodicRefresh(s) == Refresh(s)
    ensures Refresh(s) == FetchClusterList(s)
    ensures s.running.None? ==> Refresh(s).running == Some(FetchClusters)
  {
  }

  /** A listing that raised arrives as the empty list, which replaces the clusters and the list widget's clusters. */
  lemma FailedListingEmpties(s: State, configured: Option<string>)
    ensures ClustersFetchResult(s, configured, Success(Some(FetchClustersWorker(None)))).clusters == []
    ensures ClustersFetchResult(s, configured, Success(Some(FetchClustersWorker(None)))).listClusters == []
  {
  }

  /**
   * The first listing ends the loading and shows the main view; a later
   * listing replaces the clusters only. SUCCESS without a result and ERROR
   * change nothing but the worker.
   */
  lemma ListingRules(s: State, configured: Option<string>, cs: seq<Cluster>)
    ensures var r := ClustersFetchResult(s, configured, Success(Some(cs)));
      r.clusters == cs && r.listClusters == cs
    ensures var r := ClustersFetchResult(s, configured, Success(Some(cs)));
      s.loading ==> !r.loading && r.currentView == MainView
    ensures var r := ClustersFetchResult(s, configured, Success(Some(cs)));
      !s.loading ==> r == s.(running := None, clusters := cs, listClusters := cs)
    ensures ClustersFetchResult(s, configured, Success(None)) == s.(running := None)
    ensures ClustersFetchResult(s, configured, Error) == s.(running := None)
  {
    var s3 := s.(running := None, clusters := cs, listClusters := cs);
    if s.loading {
      var l := s3.(loading := false, currentView := MainView);
      assert ClustersFetchResult(s, configured, Success(Some(cs)))
        == if s.selectedCluster.None? then AutoSelect(l, configured) else l;
      AutoSelectKeepsListing(l, configured);
    } else {
      assert ClustersFetchResult(s, configured, Success(Some(cs))) == s3;
    }
  }

  /** The initial-load choice leaves the listing, the loading flag and the view alone. */
  lemma AutoSelectKeepsListing(s: State, configured: Option<string>)
    ensures var r := AutoSelect(s, configured);
      r.clusters == s.clusters && r.listClusters == s.listClusters
        && r.loading == s.loading && r.currentView == s.currentView
  {
    if HasConfigured(configured) {
      match ClusterListView.FirstClusterNamed(s.clusters, configured.value)
      case Some(c) => SelectClusterKeepsListing(s, c);
      case None =>
    } else if |s.clusters| == 1 {
      SelectClusterKeepsListing(s, s.clusters[0]);
    }
  }

  lemma SelectClusterKeepsListing(s: State, c: Cluster)
    ensures var r := SelectCluster(s, c, true);
      r.clusters == s.clusters && r.listClusters == s.listClusters
        && r.loading == s.loading && r.currentView == s.currentView
  {
  }

  /** On the first listing, with nothing selected and a configured name: the first cluster of that name is selected and its data requested; an absent name selects nothing. */
  lemma AutoSelectConfigured(s: State, configured: Option<string>, cs: seq<Cluster>)
    requires s.loading && s.selectedCluster.None? && HasConfigured(configured)
    ensures forall k :: ClusterListView.IsFirstClusterNamed(cs, configured.value, k) ==>
      var r := ClustersFetchResult(s, configured, Success(Some(cs)));
      r.selectedCluster == Some(cs[k]) && r.focusPanel == DetailPanel && r.running == Some(RefreshData)
        && r.markedName == Some(configured.value)
    ensures (forall i :: 0 <= i < |cs| ==> cs[i].name != configured.value) ==>
      var r := ClustersFetchResult(s, configured, Success(Some(cs)));
      r.selectedCluster.None? && r.focusPanel == s.focusPanel && r.running.None?
  {
    forall k | ClusterListView.IsFirstClusterNamed(cs, configured.value, k)
      ensures var r := ClustersFetchResult(s, configured, Success(Some(cs)));
        r.selectedCluster == Some(cs[k]) && r.focusPanel == DetailPanel && r.running == Some(RefreshData)
          && r.markedName == Some(configured.value)
    {
      ClusterListView.FirstClusterNamedIsFirst(cs, k);
    }
  }

  /** On the first listing, with nothing selected and no configured name: a single cluster is selected, otherwise the list gets the focus. */
  lemma AutoSelectUnconfigured(s: State, configured: Option<string>, cs: seq<Cluster>)
    requires s.loading && s.selectedCluster.None? && !HasConfigured(configured)
    ensures var r := ClustersFetchResult(s, configured, Success(Some(cs)));
      |cs| == 1 ==> r.selectedCluster == Some(cs[0]) && r.focusPanel == DetailPanel && r.running == Some(RefreshData)
    ensures var r := ClustersFetchResult(s, configured, Success(Some(cs)));
      |cs| != 1 ==> r.selectedCluster.None? && r.focusPanel == ClustersPanel && r.running.None?
  {
  }

  /** A selection that exists when the first listing arrives is kept. */
  lemma NoAutoSelectOverSelection(s: State, configured: Option<string>, cs: seq<Cluster>)
    requires s.selectedCluster.Some?
    ensures ClustersFetchResult(s, configured, Success(Some(cs))).selectedCluster == s.selectedCluster
    ensures ClustersFetchResult(s, configured, Success(Some(cs))).focusPanel == s.focusPanel
  {
  }

  /** Selecting sets the selection and the marker, requests the data when idle, and focuses the detail iff asked; deselecting clears them and focuses the list. */
  lemma SelectDeselectRules(s: State, c: Cluster, changeFocus: bool)
    ensures var r := SelectCluster(s, c, changeFocus);
      && r.selectedCluster == Some(c) && r.markedName == Some(c.name) && r.clientCluster == Some(c.name)
      && (r.focusPanel == DetailPanel <==> changeFocus || s.focusPanel == DetailPanel)
      && (!changeFocus ==> r.focusPanel == s.focusPanel)
      && r.running == (if s.running.None? then Some(RefreshData) else s.running)
    ensures var r := DeselectCluster(s);
      r.selectedCluster.None? && r.markedName.None? && r.detailCluster.None? && r.focusPanel == ClustersPanel
      && r.running == s.running && r.clusters == s.clusters
  {
  }

  /** Escape deselects exactly from the detail panel with a selection, and a second escape does nothing. */
  lemma GoBackRules(s: State)
    ensures s.focusPanel == DetailPanel && s.selectedCluster.Some? ==> GoBack(s) == DeselectCluster(s)
    ensures !(s.focusPanel == DetailPanel && s.selectedCluster.Some?) ==> GoBack(s) == s
    ensures GoBack(GoBack(s)) == GoBack(s)
  {
  }

  /** Fresh cluster data replaces the selection and the detail; no result and ERROR leave both alone. */
  lemma DataResultRules(s: State, outcome: Outcome<Cluster>)
    ensures ClusterDataResult(s, outcome).running.None?
    ensures outcome.Success? && outcome.result.Some? ==>
      ClusterDataResult(s, outcome).selectedCluster == outcome.result
      && ClusterDataResult(s, outcome).detailCluster == outcome.result
    ensures !(outcome.Success? && outcome.result.Some?) ==> ClusterDataResult(s, outcome) == s.(running := None)
  {
  }

  /** A refresh that ends after escape re-selects the cluster although the list shows no marker and the list has the focus. */
  lemma LateResultReselects(s: State, c: Cluster)
    requires s.focusPanel == DetailPanel && s.selectedCluster.Some? && s.running == Some(RefreshData)
    ensures var r := ClusterDataResult(GoBack(s), Success(Some(c)));
      r.selectedCluster == Some(c) && r.markedName.None? && r.focusPanel == ClustersPanel
  {
  }

  /** A failed fetch of the cluster makes the worker return None, which leaves the selection alone. */
  lemma FailedDataFetchKeepsSelection(s: State, d: Display, probe: Metrics.Probe,
                                      oracle: seq<Metrics.MetricQuery> -> Metrics.Response)
    ensures DataWorkerResult(d, probe, None, oracle).None?
    ensures ClusterDataResult(s, Success(DataWorkerResult(d, probe, None, oracle))).selectedCluster == s.selectedCluster
  {
  }

  /** The URL for the console: none without a selected cluster, else by what the detail view selects, most specific first. */
  lemma ConsoleUrlChoice(s: State, region: string, detail: Option<ClusterDetailView.Selection>)
    ensures ConsoleUrl(s, region, detail).None? <==> s.selectedCluster.None?
    ensures s.selectedCluster.Some? && (detail.None? || detail.value == ClusterDetailView.NoSelection) ==>
      ConsoleUrl(s, region, detail) == Some(ConsoleLink.BuildClusterUrl(s.selectedCluster.value.name, region))
  {
  }

  /**
   * With the detail view showing the selected cluster and its cursor on a
   * row whose key parses back, the URL is the container's, the task's or the
   * service's of that row.
   */
  lemma ConsoleUrlOfRow(s: State, region: string, d: Display, c: Cluster, i: nat)
    requires s.selectedCluster == Some(c)
    requires ClusterDetailView.WellNamed(c)
    requires i < |ClusterDetailView.DetailItems(Some(c))|
    requires ClusterDetailView.KeyParsable(ClusterDetailView.DetailItems(Some(c))[i])
    ensures var sel := ClusterDetailView.SelectedItem(Some(c), ClusterDetailView.DetailRows(d, Some(c)), i);
      ConsoleUrl(s, region, Some(sel)) ==
        match ClusterDetailView.DetailItems(Some(c))[i]
        case ServiceItem(sv) => Some(ConsoleLink.BuildServiceUrl(c.name, sv.name, region))
        case TaskItem(_, t) => Some(ConsoleLink.BuildTaskUrl(c.name, t.id, region))
        case ContainerItem(_, t, _) => Some(ConsoleLink.BuildContainerUrl(c.name, t.id, region))
  {
    ClusterDetailView.KeyRoundTrip(d, c, i);
  }
}

/** The application object: its fields, and one method per handler. */
module GrapesApp {
  import opened Strings
  import opened Models
  import Metrics
  import ClusterListView
  import ClusterDetailView
  import ConsoleLink
  import opened GrapesFlow

  class App {
    const configuredCluster: Option<string>
    const region: string
    const fetcher: Metrics.MetricsFetcher

    var currentView: AppView
    var focusPanel: FocusPanel
    var clusters: seq<Cluster>
    var selectedCluster: Option<Cluster>
    var loading: bool
    var insightsEnabled: bool
    var running: Option<WorkerName>
    var listClusters: seq<Cluster>
    var markedName: Option<string>
    var detailCluster: Option<Cluster>
    var clientCluster: Option<string>

    function State(): GrapesFlow.State
      reads this
    {
      GrapesFlow.State(currentView, focusPanel, clusters, selectedCluster, loading, insightsEnabled,
                       running, listClusters, markedName, detailCluster, clientCluster)
    }

    constructor (configuredCluster: Option<string>, region: string, fetcher: Metrics.MetricsFetcher)
      ensures State() == Initial(configuredCluster) && Valid(State())
      ensures this.configuredCluster == configuredCluster && this.region == region && this.fetcher == fetcher
    {
      this.configuredCluster := configuredCluster;
      this.region := region;
      this.fetcher := fetcher;
      currentView := LoadingView;
      focusPanel := ClustersPanel;
      clusters := [];
      selectedCluster := None;
      loading := true;
      insightsEnabled := false;
      running := None;
      listClusters := [];
      markedName := None;
      detailCluster := None;
      clientCluster := configuredCluster;
    }

    /** `on_mount`: the first listing request. */
    method OnMount()
      modifies this
      ensures State() == GrapesFlow.FetchClusterList(old(State()))
    {
      FetchClusterList();
    }

    method FetchClusterList()
      modifies this
      ensures State() == GrapesFlow.FetchClusterList(old(State()))
    {
      if running.Some? {
        return;
      }
      running := Some(FetchClusters);
    }

    method FetchClusterData()
      modifies this
      ensures State() == GrapesFlow.FetchClusterData(old(State()))
    {
      if selectedCluster.None? {
        return;
      }
      if running.Some? {
        return;
      }
      running := Some(RefreshData);
    }

    method ActionRefresh()
      modifies this
      ensures State() == GrapesFlow.Refresh(old(State()))
    {
      FetchClusterList();
      if selectedCluster.Some? {
        FetchClusterData();
      }
    }

    method PeriodicRefresh()
      modifies this
      ensures State() == GrapesFlow.PeriodicRefresh(old(State()))
    {
      if !loading && currentView == MainView {
        FetchClusterList();
        if selectedCluster.Some? {
          FetchClusterData();
        }
      }
    }

    method FocusClustersPanel()
      modifies this
      ensures State() == GrapesFlow.FocusClusters(old(State()))
    {
      focusPanel := ClustersPanel;
    }

    method FocusDetailPanel()
      modifies this
      ensures State() == GrapesFlow.FocusDetail(old(State()))
    {
      focusPanel := DetailPanel;
    }

    /** `_select_cluster`, and `on_cluster_selected` with `changeFocus` true. */
    method SelectCluster(c: Cluster, changeFocus: bool)
      modifies this
      ensures State() == GrapesFlow.SelectCluster(old(State()), c, changeFocus)
    {
      selectedCluster := Some(c);
      markedName := Some(c.name);
      clientCluster := Some(c.name);
      FetchClusterData();
      if changeFocus {
        FocusDetailPanel();
      }
    }

    /** `_deselect_cluster`, also what both deselection messages do. */
    method DeselectCluster()
      modifies this
      ensures State() == GrapesFlow.DeselectCluster(old(State()))
    {
      selectedCluster := None;
      markedName := None;
      detailCluster := None;
      FocusClustersPanel();
    }

    method ActionGoBack()
      modifies this
      ensures State() == GrapesFlow.GoBack(old(State()))
    {
      if focusPanel == DetailPanel && selectedCluster.Some? {
        DeselectCluster();
      }
    }

    /** The listing worker ended; `_handle_clusters_fetch_result`, with the auto-select search over the clusters. */
    method OnClustersFetchResult(outcome: Outcome<seq<Cluster>>)
      modifies this
      ensures State() == GrapesFlow.ClustersFetchResult(old(State()), configuredCluster, outcome)
    {
      running := None;
      if !(outcome.Success? && outcome.result.Some?) {
        return;
      }
      clusters := outcome.result.value;
      var initial := loading;
      if loading {
        loading := false;
        currentView := MainView;
      }
      listClusters := clusters;
      if initial && selectedCluster.None? {
        if configuredCluster.Some? && configuredCluster.value != "" {
          var name := configuredCluster.value;
          var i := 0;
          while i < |clusters|
            invariant 0 <= i <= |clusters|
            invariant forall j :: 0 <= j < i ==> clusters[j].name != name
            invariant State() == old(State()).(running := None, clusters := outcome.result.value,
                                               loading := false, currentView := MainView,
                                               listClusters := outcome.result.value)
          {
            if clusters[i].name == name {
              ClusterListView.FirstClusterNamedIsFirst(clusters, i);
              SelectCluster(clusters[i], true);
              return;
            }
            i := i + 1;
          }
        } else if |clusters| == 1 {
          SelectCluster(clusters[0], true);
        } else {
          FocusClustersPanel();
        }
      }
    }

    /** The refresh worker ended; `_handle_cluster_data_result` with `_update_detail_view`. */
    method OnClusterDataResult(outcome: Outcome<Cluster>)
      modifies this
      ensures State() == GrapesFlow.ClusterDataResult(old(State()), outcome)
    {
      running := None;
      if outcome.Success? && outcome.result.Some? {
        selectedCluster := outcome.result;
        detailCluster := selectedCluster;
      }
    }

    /**
     * `_fetch_cluster_data_worker`: probe Container Insights on every run,
     * fetch the cluster (None when that raised) and its metrics. `fetched`
     * and `probe` are the answers of the AWS calls.
     */
    method RunDataWorker(probe: Metrics.Probe, fetched: Option<Cluster>,
                         oracle: seq<Metrics.MetricQuery> -> Metrics.Response)
      returns (result: Option<Cluster>)
      modifies this`insightsEnabled, fetcher`insightsEnabled
      ensures result == DataWorkerResult(fetcher.display, probe, fetched, oracle)
      ensures insightsEnabled == Metrics.ProbeEnabled(probe)
      ensures fetcher.insightsEnabled == Some(Metrics.ProbeEnabled(probe))
    {
      var enabled := fetcher.CheckContainerInsights(probe);
      insightsEnabled := enabled;
      if fetched.None? {
        result := None;
        return;
      }
      var updated, calls, probed := fetcher.FetchMetricsForCluster(fetched.value, probe, oracle);
      result := Some(updated.(insightsEnabled := insightsEnabled));
    }

    /** `action_open_console`: the URL to open; `detail` is the detail view's selection, None when it cannot be asked. */
    method ActionOpenConsole(detail: Option<ClusterDetailView.Selection>) returns (url: Option<string>)
      ensures url == ConsoleUrl(State(), region, detail)
      ensures url.None? <==> selectedCluster.None?
    {
      if selectedCluster.None? {
        return None;
      }
      var name := selectedCluster.value.name;
      if detail.None? {
        url := Some(ConsoleLink.BuildClusterUrl(name, region));
      } else {
        var sel := detail.value;
        if sel.container.Some? && sel.task.Some? {
          url := Some(ConsoleLink.BuildContainerUrl(name, sel.task.value.id, region));
        } else if sel.task.Some? {
          url := Some(ConsoleLink.BuildTaskUrl(name, sel.task.value.id, region));
        } else if sel.service.Some? {
          url := Some(ConsoleLink.BuildServiceUrl(name, sel.service.value.name, region));
        } else {
          url := Some(ConsoleLink.BuildClusterUrl(name, region));
        }
      }
    }
  }
}
