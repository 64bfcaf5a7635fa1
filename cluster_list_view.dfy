/**
 * The grapes cluster list: one table row per cluster, keyed by the cluster
 * name, with the selected cluster marked, and the selection lookups that
 * turn the cursor or a selected row back into a cluster.
 */
module ClusterListView {
  import opened Strings
  import opened Models

  /**
   * The selection marker as the source spells it: the bytes of a UTF-8
   * triangle read as Latin-1/cp1252 text, then a space.
   */
  const SelectedMarker: string := "\U{00E2}\U{2013}\U{00B6} "
  const UnselectedMarker: string := "  "

  /** ACTIVE is green, PROVISIONING and DEPROVISIONING yellow, any other status red. */
  function ClusterStatusColour(status: string): Colour {
    if status == "ACTIVE" then Green
    else if status == "PROVISIONING" || status == "DEPROVISIONING" then Yellow
    else Red
  }

  /** The three status colours, each on exactly its statuses. */
  lemma ClusterStatusStyling(status: string)
    ensures ClusterStatusColour(status) == Green <==> status == "ACTIVE"
    ensures ClusterStatusColour(status) == Yellow <==> status == "PROVISIONING" || status == "DEPROVISIONING"
    ensures ClusterStatusColour(status) == Red <==>
      status != "ACTIVE" && status != "PROVISIONING" && status != "DEPROVISIONING"
  {
  }

  /** The name cell: the marker for the selected cluster, two spaces for every other. */
  function NameCell(name: string, selected: Option<string>): string {
    (if selected == Some(name) then SelectedMarker else UnselectedMarker) + name
  }

  /** `f"{running}/{pending}"`. */
  function TasksCell(c: Cluster): string {
    NatToString(c.runningTasksCount) + "/" + NatToString(c.pendingTasksCount)
  }

  function ClusterRow(c: Cluster, selected: Option<string>): Row {
    Row(c.name,
        [ NameCell(c.name, selected),
          Styled(ClusterStatusColour(c.status), c.status),
          NatToString(c.activeServicesCount),
          TasksCell(c),
          NatToString(c.registeredContainerInstancesCount),
          c.region ])
  }

  /** The rows `_update_table` fills: one per cluster, in list order, keyed by name. */
  function ListRows(clusters: seq<Cluster>, selected: Option<string>): (rows: seq<Row>)
    ensures |rows| == |clusters|
    ensures forall i :: 0 <= i < |clusters| ==> rows[i].key == clusters[i].name
  {
    seq(|clusters|, i requires 0 <= i < |clusters| => ClusterRow(clusters[i], selected))
  }

  /** One more cluster adds its row at the end. */
  lemma ListRowsSnoc(clusters: seq<Cluster>, i: nat, selected: Option<string>)
    requires i < |clusters|
    ensures ListRows(clusters[..i + 1], selected) == ListRows(clusters[..i], selected) + [ClusterRow(clusters[i], selected)]
  {
    var l, r := ListRows(clusters[..i + 1], selected), ListRows(clusters[..i], selected) + [ClusterRow(clusters[i], selected)];
    forall j | 0 <= j < |l|
      ensures l[j] == r[j]
    {
      assert clusters[..i + 1][j] == clusters[j];
    }
  }

  /** Exactly the rows of the selected name carry the marker; every other row starts with two spaces. */
  lemma SelectionMarkerExactlyOnSelected(clusters: seq<Cluster>, selected: Option<string>, i: nat)
    requires i < |clusters|
    ensures StartsWith(ListRows(clusters, selected)[i].cells[0], SelectedMarker) <==> selected == Some(clusters[i].name)
    ensures selected != Some(clusters[i].name) ==>
      ListRows(clusters, selected)[i].cells[0] == UnselectedMarker + clusters[i].name
  {
    var cell := ListRows(clusters, selected)[i].cells[0];
    if selected != Some(clusters[i].name) {
      assert cell[0] == ' ';
    }
  }

  /** The tasks cell reads back as the running and pending counts. */
  lemma TasksCellRecovered(c: Cluster)
    ensures |Split(TasksCell(c), '/', 1)| == 2
    ensures IsDigits(Split(TasksCell(c), '/', 1)[0]) && IsDigits(Split(TasksCell(c), '/', 1)[1])
    ensures DigitsValue(Split(TasksCell(c), '/', 1)[0]) == c.runningTasksCount
    ensures DigitsValue(Split(TasksCell(c), '/', 1)[1]) == c.pendingTasksCount
  {
    var r := NatToString(c.runningTasksCount);
    var p := NatToString(c.pendingTasksCount);
    assert '/' !in r && '/' !in p;
    assert TasksCell(c) == r + ['/'] + p;
    SplitAt(r, '/', p, 1);
    DigitsValueOfNatToString(c.runningTasksCount);
    DigitsValueOfNatToString(c.pendingTasksCount);
  }

  /** `get_selected_cluster`: the cluster under the cursor, or None for an empty list or a cursor past its end. */
  function SelectedCluster(clusters: seq<Cluster>, cursor: nat): (r: Option<Cluster>)
    ensures r.None? <==> clusters == [] || cursor >= |clusters|
    ensures r.Some? ==> r.value == clusters[cursor]
  {
    if clusters == [] then None
    else if cursor < |clusters| then Some(clusters[cursor])
    else None
  }

  /** The first cluster called `name`, the search of the row-selected handler. */
  function FirstClusterNamed(clusters: seq<Cluster>, name: string): (r: Option<Cluster>)
    ensures r.None? <==> forall i :: 0 <= i < |clusters| ==> clusters[i].name != name
    ensures r.Some? ==> r.value in clusters && r.value.name == name
  {
    if clusters == [] then None
    else if clusters[0].name == name then Some(clusters[0])
    else
      var r := FirstClusterNamed(clusters[1..], name);
      assert forall i :: 1 <= i < |clusters| ==> clusters[i] == clusters[1..][i - 1];
      r
  }

  /** `k` is the position of the first cluster called `name`. */
  predicate IsFirstClusterNamed(clusters: seq<Cluster>, name: string, k: int) {
    0 <= k < |clusters| && clusters[k].name == name
    && forall j :: 0 <= j < k ==> clusters[j].name != name
  }

  /** The first cluster of a name comes before every other cluster of that name. */
  lemma {:induction false} FirstClusterNamedIsFirst(clusters: seq<Cluster>, k: nat)
    requires k < |clusters|
    requires forall j :: 0 <= j < k ==> clusters[j].name != clusters[k].name
    ensures FirstClusterNamed(clusters, clusters[k].name) == Some(clusters[k])
    decreases k
  {
    if k > 0 {
      assert clusters[1..][k - 1] == clusters[k];
      forall j | 0 <= j < k - 1 ensures clusters[1..][j].name != clusters[1..][k - 1].name {
        assert clusters[1..][j] == clusters[j + 1];
      }
      FirstClusterNamedIsFirst(clusters[1..], k - 1);
    }
  }

  /** The `ClusterList` widget: its reactive clusters and selected name, and its table. */
  class ClusterList {
    var clusters: seq<Cluster>
    var selectedClusterName: Option<string>
    var columnsReady: bool
    var rows: seq<Row>

    constructor ()
      ensures clusters == [] && selectedClusterName.None? && !columnsReady && rows == []
    {
      clusters := [];
      selectedClusterName := None;
      columnsReady := false;
      rows := [];
    }

    /** `on_mount` sets the columns up but does not fill the table. */
    method OnMount()
      modifies this`columnsReady
      ensures columnsReady
    {
      columnsReady := true;
    }

    /** `_update_table`: a no-op before the columns exist; otherwise clear and refill. */
    method UpdateTable()
      modifies this`rows
      ensures rows == if columnsReady then ListRows(clusters, selectedClusterName) else old(rows)
    {
      if !columnsReady {
        return;
      }
      rows := [];
      var i := 0;
      while i < |clusters|
        invariant 0 <= i <= |clusters|
        invariant rows == ListRows(clusters[..i], selectedClusterName)
      {
        rows := rows + [ClusterRow(clusters[i], selectedClusterName)];
        ListRowsSnoc(clusters, i, selectedClusterName);
        i := i + 1;
      }
      assert clusters[..i] == clusters;
    }

    /** Assigning `clusters` (always-update reactive): the table is refreshed every time. */
    method SetClusters(cs: seq<Cluster>)
      modifies this`clusters, this`rows
      ensures clusters == cs
      ensures rows == if columnsReady then ListRows(cs, selectedClusterName) else old(rows)
    {
      clusters := cs;
      UpdateTable();
    }

    /** Assigning `selected_cluster_name`: the watcher runs only when the name changes. */
    method SetSelectedClusterName(name: Option<string>)
      modifies this`selectedClusterName, this`rows
      ensures selectedClusterName == name
      ensures rows == if columnsReady && name != old(selectedClusterName) then ListRows(clusters, name) else old(rows)
    {
      if name != selectedClusterName {
        selectedClusterName := name;
        UpdateTable();
      }
    }

    /** `get_selected_cluster` with the cursor on row `cursor`. */
    function GetSelectedCluster(cursor: nat): Option<Cluster>
      reads this
    {
      SelectedCluster(clusters, cursor)
    }

    /** `action_select_cluster`: the cluster a `ClusterSelected` message is posted for, if any. */
    method ActionSelectCluster(cursor: nat) returns (posted: Option<Cluster>)
      ensures posted.None? <==> cursor >= |clusters|
      ensures posted.Some? ==> posted.value == clusters[cursor]
    {
      posted := GetSelectedCluster(cursor);
    }

    /** `on_data_table_row_selected`: the first cluster whose name is the row key, if any. */
    method OnDataTableRowSelected(key: string) returns (posted: Option<Cluster>)
      ensures posted.None? <==> forall i :: 0 <= i < |clusters| ==> clusters[i].name != key
      ensures posted.Some? ==> posted.value in clusters && posted.value.name == key
      ensures forall k :: IsFirstClusterNamed(clusters, key, k) ==> posted == Some(clusters[k])
    {
      if clusters == [] {
        return None;
      }
      var i := 0;
      while i < |clusters|
        invariant 0 <= i <= |clusters|
        invariant forall j :: 0 <= j < i ==> clusters[j].name != key
      {
        if clusters[i].name == key {
          FirstClusterNamedIsFirst(clusters, i);
          return Some(clusters[i]);
        }
        i := i + 1;
      }
      return None;
    }
  }

  /** Selecting a row of the current table posts the cluster shown on it, when names are unique. */
  lemma RowSelectionFindsShownCluster(clusters: seq<Cluster>, selected: Option<string>, i: nat)
    requires i < |clusters|
    requires forall j, k :: 0 <= j < k < |clusters| ==> clusters[j].name != clusters[k].name
    ensures FirstClusterNamed(clusters, ListRows(clusters, selected)[i].key) == Some(clusters[i])
  {
    FirstClusterNamedIsFirst(clusters, i);
  }
}
