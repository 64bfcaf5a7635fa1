/**
 * The ecs_monitor service list: one table row per service, keyed by the
 * service name, and the selection lookups that turn the cursor or a
 * selected row back into a service.
 */
module ServiceView {
  import opened Strings
  import opened Models

  function ServiceRow(d: Display, s: Service): Row {
    Row(s.name,
        [ s.name,
          Styled(ActiveColour(s.status, "ACTIVE"), s.status),
          d.tasksDisplay(s),
          Styled(HealthColour(d.calculateHealth(s)), d.healthDisplay(s)),
          d.deploymentStatus(s) ])
  }

  /** The rows `_update_table` fills: one per service, in list order, keyed by name. */
  function ListRows(d: Display, services: seq<Service>): (rows: seq<Row>)
    ensures |rows| == |services|
    ensures forall i :: 0 <= i < |services| ==> rows[i].key == services[i].name
  {
    seq(|services|, i requires 0 <= i < |services| => ServiceRow(d, services[i]))
  }

  /**
   * The status and health cells of a row: ACTIVE alone is green, and the
   * health text is green when healthy, red when unhealthy, yellow on a
   * warning and dim otherwise.
   */
  lemma RowStyling(d: Display, services: seq<Service>, i: nat)
    requires i < |services|
    ensures ListRows(d, services)[i].cells[1] ==
      if services[i].status == "ACTIVE" then "[green]" + services[i].status + "[/green]"
      else "[yellow]" + services[i].status + "[/yellow]"
    ensures ListRows(d, services)[i].cells[3] ==
      var text := d.healthDisplay(services[i]);
      match d.calculateHealth(services[i])
      case Healthy => "[green]" + text + "[/green]"
      case Unhealthy => "[red]" + text + "[/red]"
      case Warning => "[yellow]" + text + "[/yellow]"
      case Unknown => "[dim]" + text + "[/dim]"
  {
  }

  /** `get_selected_service`: the service named by the cursor row's key, or None. */
  function SelectedService(services: seq<Service>, rows: seq<Row>, cursor: nat): (r: Option<Service>)
    ensures r.Some? ==> cursor < |rows| && r.value in services && r.value.name == rows[cursor].key
    ensures cursor < |rows| && r.None? ==> forall i :: 0 <= i < |services| ==> services[i].name != rows[cursor].key
  {
    if cursor < |rows| then
      var r := FirstServiceNamed(services, rows[cursor].key);
      assert r.Some? ==> r.value in services && r.value.name == rows[cursor].key by {
        if r.Some? { var i :| IsFirstNamed(services, rows[cursor].key, i) && services[i] == r.value; }
      }
      r
    else None
  }

  /**
   * `action_select_service`: the first service named by the cursor row's
   * key; failing that, the service at the cursor index when in range;
   * nothing for an empty list.
   */
  function ServiceToSelect(services: seq<Service>, rows: seq<Row>, cursor: nat): (r: Option<Service>)
    ensures services == [] ==> r.None?
    ensures r.None? ==> services == [] || (cursor >= |services| && SelectedService(services, rows, cursor).None?)
    ensures r.Some? ==> r.value in services
  {
    if services == [] then None
    else
      match SelectedService(services, rows, cursor)
      case Some(s) => Some(s)
      case None => if cursor < |services| then Some(services[cursor]) else None
  }

  /** On the list's own rows, the cursor row's service is picked, whatever the names. */
  lemma SelectOnOwnRows(d: Display, services: seq<Service>, cursor: nat)
    requires cursor < |services|
    ensures ServiceToSelect(services, ListRows(d, services), cursor).Some?
    ensures ServiceToSelect(services, ListRows(d, services), cursor).value.name == services[cursor].name
    ensures UniqueServiceNames(services) ==>
      ServiceToSelect(services, ListRows(d, services), cursor) == Some(services[cursor])
  {
    var rows := ListRows(d, services);
    assert rows[cursor].key == services[cursor].name;
    assert FirstServiceNamed(services, rows[cursor].key).Some?;
    if UniqueServiceNames(services) {
      FirstServiceNamedUnique(services, cursor);
    }
  }

  /** On the list's own rows, nothing is picked exactly when the cursor is past the last service. */
  lemma SelectPastEnd(d: Display, services: seq<Service>, cursor: nat)
    ensures ServiceToSelect(services, ListRows(d, services), cursor).None? <==> cursor >= |services|
  {
    if cursor < |services| {
      SelectOnOwnRows(d, services, cursor);
    }
  }

  /** The index fallback: a cursor row whose key names no service selects the service at the cursor. */
  lemma IndexFallback(services: seq<Service>, rows: seq<Row>, cursor: nat)
    requires cursor < |services|
    requires cursor >= |rows| || forall i :: 0 <= i < |services| ==> services[i].name != rows[cursor].key
    ensures ServiceToSelect(services, rows, cursor) == Some(services[cursor])
  {
  }

  /** The `ServiceList` widget: its reactive services and its table. */
  class ServiceList {
    const display: Display
    var services: seq<Service>
    var rows: seq<Row>

    constructor (display: Display)
      ensures this.display == display && services == [] && rows == []
    {
      this.display := display;
      services := [];
      rows := [];
    }

    /** `_update_table`: clear and refill. */
    method UpdateTable()
      modifies this`rows
      ensures rows == ListRows(display, services)
    {
      rows := [];
      var i := 0;
      while i < |services|
        invariant 0 <= i <= |services|
        invariant rows == ListRows(display, services[..i])
      {
        rows := rows + [ServiceRow(display, services[i])];
        assert services[..i + 1][..i] == services[..i];
        i := i + 1;
      }
      assert services[..i] == services;
    }

    /** Assigning `services` (always-update reactive): the table is refreshed every time. */
    method SetServices(ss: seq<Service>)
      modifies this`services, this`rows
      ensures services == ss && rows == ListRows(display, ss)
    {
      services := ss;
      UpdateTable();
    }

    function GetSelectedService(cursor: nat): Option<Service>
      reads this
    {
      SelectedService(services, rows, cursor)
    }

    /** `action_select_service`: the service a `ServiceSelected` message is posted for, if any. */
    method ActionSelectService(cursor: nat) returns (posted: Option<Service>)
      ensures posted == ServiceToSelect(services, rows, cursor)
    {
      if services == [] {
        return None;
      }
      if cursor < |rows| {
        var i := 0;
        while i < |services|
          invariant 0 <= i <= |services|
          invariant forall j :: 0 <= j < i ==> services[j].name != rows[cursor].key
        {
          if services[i].name == rows[cursor].key {
            FirstServiceNamedAt(services, services[i].name, i);
            return Some(services[i]);
          }
          i := i + 1;
        }
      }
      if cursor < |services| {
        return Some(services[cursor]);
      }
      return None;
    }

    /** `on_data_table_row_selected`: the first service whose name is the row key, if any. */
    method OnDataTableRowSelected(key: string) returns (posted: Option<Service>)
      ensures posted == FirstServiceNamed(services, key)
    {
      if services == [] {
        return None;
      }
      var i := 0;
      while i < |services|
        invariant 0 <= i <= |services|
        invariant forall j :: 0 <= j < i ==> services[j].name != key
      {
        if services[i].name == key {
          FirstServiceNamedAt(services, services[i].name, i);
          return Some(services[i]);
        }
        i := i + 1;
      }
      return None;
    }
  }
}
