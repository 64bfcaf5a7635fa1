# Grapes / ECS Monitor — a Dafny model

Grapes and its predecessor ECS Monitor are terminal dashboards for Amazon ECS, built on the Textual
framework. Grapes lists the clusters of an account. Selecting one opens a detail table where each
service is followed by its tasks, and by the containers of every task that has more than one.
ECS Monitor watches a single configured cluster. It shows a service list and, for the chosen
service, a detail view with its header, deployments and a task/container table. Both apps refresh
in a background worker and copy or open AWS console links for the selected item. When Container
Insights is on, both fetch CPU and memory metrics from CloudWatch in batches of at most 500 queries.

The model covers:

- `Strings`: Python's `split(sep, maxsplit)`, `"sep".join`, ASCII `isdigit` and `str(n)` on
  naturals, with their round trips.
- `Ids`: `extract_task_definition_name` and `sanitize_metric_id`, the metric-id rules CloudWatch
  imposes.
- `ConsoleLink`: the four console URL builders.
- `Models`: the domain records (`Cluster`, `Service`, `Task`, `Container`, `Deployment`). The
  records' own display helpers (short ids, health, CPU and memory text) are left uninterpreted in
  a `Display` value.
- `ClusterListView`: the Grapes cluster list widget. It is a class whose table rows are a
  `seq<Row>`; the cursor is a `nat`.
- `ClusterDetailView`: the Grapes hierarchical detail table, and the parsing of its row keys back
  into a selection.
- `ServiceView`: the ECS Monitor service list.
- `TaskView`: the ECS Monitor service detail view (header text, deployments text, task/container
  rows and row-key parsing).
- `Metrics`: the metrics fetcher.
  - The query builders and the running-task scan.
  - The batched fetch loop and the fold of every call's answer into an id-to-value map.
  - The attachment of values to services and containers.
  - The cached Container Insights probe. It is a class with that cache as its field.
- `GrapesFlow` and `GrapesApp`: the Grapes application. `GrapesFlow` holds the state as a value,
  with one transition function per handler. `GrapesApp.App` is the class whose methods perform
  those transitions step by step.
- `MonitorFlow` and `MonitorApp`: the same split for the ECS Monitor application.

Each widget and app class exposes its fields as a `State()` value. Each method's postcondition sets
the new state equal to a transition function of the old state. The properties are lemmas about
those functions: invariants that every transition preserves, skip rules, auto-selection,
re-resolution after refresh, and the URL chosen for each row.

## Model

| member | source | states |
|---|---|---|
| Strings.Split | grapes/ui/cluster_detail_view.py:236-247 | `split(sep, maxsplit)` yields 1..maxsplit+1 parts; no part except the last contains the separator, and the last holds none either when fewer than maxsplit splits happened |
| Strings.JoinSplit | ecs_monitor/ui/task_view.py:237-239 | joining the parts of a split with the same separator gives back the original string |
| Strings.SplitJoin | ecs_monitor/ui/task_view.py:117 | splitting a join of separator-free parts (at most maxsplit+1 of them) recovers exactly those parts |
| Strings.NatToString | grapes/ui/cluster_list_view.py:108-110 | `str(n)` of a natural is a non-empty string of ASCII digits |
| Strings.DigitsValueOfNatToString | ecs_monitor/ui/task_view.py:240-243 | `int()` of `str(n)` is `n` again |
| Ids.LastSegment | grapes/utils/ids.py:19-21 | the result has no `/`, is a suffix of the input, and is preceded by a `/` unless it is the whole input |
| Ids.LastSegmentOfPlain | grapes/utils/ids.py:19-21 | a string without `/` is its own last segment |
| Ids.ExtractTaskDefinitionName | grapes/utils/ids.py:6-21 | a string without `/` comes back unchanged; otherwise the result is the `/`-free tail after the last `/` |
| Ids.ExtractTaskDefinitionNameAt | grapes/utils/ids.py:19-21 | if position k holds the last `/`, the name is everything after k |
| Ids.ExtractTaskDefinitionNameAfter | grapes/utils/ids.py:19-21 | a `/`-free name after a prefix ending in `/` is exactly what comes back |
| Ids.ExtractTaskDefinitionNameExampleFullArn | grapes/utils/ids.py:6-21 | a full ARN with revision yields `family:revision` |
| Ids.ExtractTaskDefinitionNameExampleNoRevision | grapes/utils/ids.py:6-21 | an ARN without revision yields the family |
| Ids.ExtractTaskDefinitionNameExampleHyphens | grapes/utils/ids.py:6-21 | hyphenated families are kept intact |
| Ids.ExtractTaskDefinitionNameExamplePlain | grapes/utils/ids.py:6-21 | a plain name and the empty string come back unchanged |
| Ids.RewriteChar | grapes/utils/ids.py:38-40 | upper-case ASCII letters go to lower case; lower-case letters and digits stay; every other character becomes `_`; the result is always a legal id character |
| Ids.Rewrite | grapes/utils/ids.py:38-40 | the rewrite keeps the length, rewrites position by position, and uses only `[a-z0-9_]` |
| Ids.SanitizeMetricId | grapes/utils/ids.py:24-44 | `sanitize_metric_id`: each non-alphanumeric character becomes `_`, letters are lower-cased, and `m_` is put in front of a non-empty result that does not start with a letter; `SanitizeMetricIdSpec` and `SanitizeMetricIdIdempotent` prove what this guarantees |
| Ids.SanitizeMetricIdSpec | grapes/utils/ids.py:24-44 | the result is a legal CloudWatch id (empty, or starts with a lower-case letter, then `[a-z0-9_]`); it is empty exactly when the input is; `m_` is prepended exactly when the first rewritten character is not a letter; the rest is the rewrite of the input |
| Ids.RewriteOfIdAlphabet | grapes/utils/ids.py:38-40 | a string already over `[a-z0-9_]` is unchanged by the rewrite |
| Ids.SanitizeMetricIdIdempotent | grapes/utils/ids.py:24-44 | sanitising a sanitised id changes nothing |
| Ids.SanitizeMetricIdExamplePlain | grapes/utils/ids.py:24-44 | `myservice` is already legal |
| Ids.SanitizeMetricIdExampleHyphens | grapes/utils/ids.py:24-44 | hyphens become underscores |
| Ids.SanitizeMetricIdExampleDots | grapes/utils/ids.py:24-44 | dots become underscores |
| Ids.SanitizeMetricIdExampleUppercase | grapes/utils/ids.py:24-44 | upper case is folded to lower case |
| Ids.SanitizeMetricIdExampleLeadingDigit | grapes/utils/ids.py:24-44 | a leading digit gets the `m_` prefix |
| Ids.SanitizeMetricIdExampleComplex | grapes/utils/ids.py:24-44 | mixed punctuation and case are normalised together |
| Ids.SanitizeMetricIdExampleAllSpecial | grapes/utils/ids.py:24-44 | an all-punctuation input becomes `m_` followed by underscores |
| Ids.SanitizeMetricIdExampleEmpty | grapes/utils/ids.py:24-44 | the empty string stays empty, with no prefix |
| ConsoleLink.BuildClusterUrl | ecs_monitor/ui/console_link.py:15-27 | `build_cluster_url`: the console base `https://console.aws.amazon.com/ecs/v2/clusters/`, then the cluster name and `?region=` with the region, all inserted without escaping |
| ConsoleLink.BuildServiceUrl | ecs_monitor/ui/console_link.py:30-41 | `build_service_url`: the cluster prefix, `/services/` and the service name, then `?region=` with the region; `ServiceUrlInjective` shows the service name can be recovered from it |
| ConsoleLink.BuildTaskUrl | ecs_monitor/ui/console_link.py:44-55 | `build_task_url`: the cluster prefix, `/tasks/` and the task id, then `?region=` with the region; `TaskUrlInjective` shows the task id can be recovered from it |
| ConsoleLink.BuildContainerUrl | ecs_monitor/ui/console_link.py:58-69 | `build_container_url`: the task URL of the same task, followed by the `#containers` anchor (`ContainerUrlExtendsTaskUrl`) |
| ConsoleLink.ContainerUrlExtendsTaskUrl | ecs_monitor/ui/console_link.py:44-69 | a container URL is exactly the task URL for the same cluster, task and region, followed by `#containers` |
| ConsoleLink.UrlsShareClusterPrefix | ecs_monitor/ui/console_link.py:15-69 | all four URLs start with the cluster's console prefix, from which the cluster name can be read back |
| ConsoleLink.ServiceUrlInjective | ecs_monitor/ui/console_link.py:30-41 | different service names in one cluster and region give different URLs |
| ConsoleLink.TaskUrlInjective | ecs_monitor/ui/console_link.py:44-55 | different task ids in one cluster and region give different URLs |
| ConsoleLink.ServiceUrlIsNotTaskUrl | ecs_monitor/ui/console_link.py:30-55 | a service URL never equals a task URL |
| ConsoleLink.ClusterUrlExample | ecs_monitor/ui/console_link.py:15-27 | the literal URL for `my-cluster` in `us-east-1` |
| ConsoleLink.ServiceUrlExample | ecs_monitor/ui/console_link.py:30-41 | the literal service URL |
| ConsoleLink.TaskUrlExample | ecs_monitor/ui/console_link.py:44-55 | the literal task URL |
| ConsoleLink.ContainerUrlExample | ecs_monitor/ui/console_link.py:58-69 | the literal container URL with its `#containers` anchor |
| Models.StyledInjective | grapes/ui/cluster_list_view.py:84-89 | Rich markup `[c]text[/c]` determines both its colour and its text |
| Models.FirstServiceNamed | ecs_monitor/ui/app.py:288-302 | the search by name finds nothing exactly when no service has that name; otherwise it returns the first service with it |
| Models.FirstServiceNamedAt | ecs_monitor/ui/app.py:288-302 | when service k is the first with a name, the search returns service k |
| Models.FirstServiceNamedUnique | ecs_monitor/ui/service_view.py:125-131 | with distinct names, searching for service k's name returns service k |
| ClusterListView.ClusterStatusColour | grapes/ui/cluster_list_view.py:84-89 | the status colour: green for ACTIVE, yellow for PROVISIONING or DEPROVISIONING, red for any other status; `ClusterStatusStyling` proves each colour goes with exactly those statuses |
| ClusterListView.TasksCell | grapes/ui/cluster_list_view.py:91-94 | the tasks cell: the running count, `/`, and the pending count, both in decimal; `TasksCellRecovered` proves both counts can be read back from it |
| ClusterListView.NameCell | grapes/ui/cluster_list_view.py:96-103 | the name cell: the selection marker for the cluster whose name is the selected name, two spaces for every other cluster, then the name; `SelectionMarkerExactlyOnSelected` proves the marker appears on exactly that row |
| ClusterListView.ClusterRow | grapes/ui/cluster_list_view.py:105-113 | one `add_row` call: keyed by the cluster name, with the name cell, the coloured status, the active-services count, the tasks cell, the registered-instances count and the region |
| ClusterListView.ClusterStatusStyling | grapes/ui/cluster_list_view.py:84-89 | green exactly for ACTIVE, yellow exactly for PROVISIONING/DEPROVISIONING, red exactly for the rest |
| ClusterListView.ListRows | grapes/ui/cluster_list_view.py:80-113 | one row per cluster, in order, keyed by the cluster's name |
| ClusterListView.SelectionMarkerExactlyOnSelected | grapes/ui/cluster_list_view.py:96-103 | a row's name cell has the `▶` marker exactly when that cluster is the selected one; every other row is indented by two spaces |
| ClusterListView.TasksCellRecovered | grapes/ui/cluster_list_view.py:91-94 | the TASKS cell splits at `/` into two digit strings whose values are the running and pending counts |
| ClusterListView.SelectedCluster | grapes/ui/cluster_list_view.py:115-127 | no cluster exactly when the list is empty or the cursor is past its end; otherwise the cluster at the cursor |
| ClusterListView.FirstClusterNamed | grapes/ui/cluster_list_view.py:137-141 | none exactly when no cluster has the name; otherwise a listed cluster with that name |
| ClusterListView.FirstClusterNamedIsFirst | grapes/ui/cluster_list_view.py:137-141 | the search returns the first cluster carrying the name |
| ClusterListView.RowSelectionFindsShownCluster | grapes/ui/cluster_list_view.py:105-141 | with distinct names, selecting row i's key finds cluster i again |
| ClusterListView.ClusterList.constructor | grapes/ui/cluster_list_view.py:31-33 | empty list, no selection, columns not ready, empty table |
| ClusterListView.ClusterList.OnMount | grapes/ui/cluster_list_view.py:40-58 | marks the columns ready |
| ClusterListView.ClusterList.UpdateTable | grapes/ui/cluster_list_view.py:68-113 | the table becomes the rows for the current clusters and selection once the columns are ready; before that it is untouched |
| ClusterListView.ClusterList.GetSelectedCluster | grapes/ui/cluster_list_view.py:115-127 | `get_selected_cluster` with the cursor on a given row: the cluster at that index of the widget's list, or nothing when the cursor is past the end; this is `SelectedCluster` applied to the widget's own list |
| ClusterListView.ClusterList.SetClusters | grapes/ui/cluster_list_view.py:60-62 | assigning the list always re-renders, because the field is declared with `always_update` |
| ClusterListView.ClusterList.SetSelectedClusterName | grapes/ui/cluster_list_view.py:64-66 | assigning the selected name re-renders only when it changed |
| ClusterListView.ClusterList.ActionSelectCluster | grapes/ui/cluster_list_view.py:129-133 | posts the cluster under the cursor, or nothing when the cursor is past the end |
| ClusterListView.ClusterList.OnDataTableRowSelected | grapes/ui/cluster_list_view.py:135-141 | posts the first cluster whose name equals the row key, and nothing when none matches |
| ClusterDetailView.TaskStatusStyling | grapes/ui/cluster_detail_view.py:191-200 | RUNNING green, PENDING yellow, STOPPED red, anything else dim |
| ClusterDetailView.HealthStyling | grapes/ui/cluster_detail_view.py:168-189 | HEALTHY green, UNHEALTHY red, WARNING yellow, UNKNOWN dim; the symbol form styles the health's symbol the same way |
| ClusterDetailView.ItemKey | grapes/ui/cluster_detail_view.py:79-166 | the row keys: `svc_` and the service name; `task_`, the service name, `_` and the task id; `container_`, the service name, the task id and the container name joined by `_`; `KeyRoundTrip` proves that in a well-named cluster each key leads back to its row's entity |
| ClusterDetailView.ItemRow | grapes/ui/cluster_detail_view.py:79-166 | the `add_row` call for each kind of row: its key and the eight cells of `_add_service_row`, `_add_task_row` (usage shown inline only for a single container, `-` otherwise) or `_add_container_row` |
| ClusterDetailView.ContainerItems | grapes/ui/cluster_detail_view.py:74-76 | one container row per container of the task, in order |
| ClusterDetailView.DetailItems | grapes/ui/cluster_detail_view.py:63-77 | the entity behind each row `_update_table` adds: none without a cluster; otherwise, for each service in order, its row, then each task's row, then that task's container rows when it has more than one container; `DetailItemsContents` proves this both ways |
| ClusterDetailView.DetailRows | grapes/ui/cluster_detail_view.py:49-77 | the rows `_update_table` adds after clearing the table: the row of each entity in `DetailItems`, in order; `DetailView.UpdateTable` ends with exactly these rows |
| ClusterDetailView.TasksItemsSound | grapes/ui/cluster_detail_view.py:70-76 | every row under a service is a task of that service, or a container of such a task when the task has more than one container |
| ClusterDetailView.TasksItemsComplete | grapes/ui/cluster_detail_view.py:70-76 | every task gets a row, and so does each container of a task with more than one container |
| ClusterDetailView.ServicesItemsSound | grapes/ui/cluster_detail_view.py:66-76 | every row of the table belongs to a service of the cluster |
| ClusterDetailView.ServicesItemsComplete | grapes/ui/cluster_detail_view.py:66-76 | every service, task and (multi-container) container of the cluster has a row |
| ClusterDetailView.DetailItemsContents | grapes/ui/cluster_detail_view.py:63-76 | no cluster gives an empty table; otherwise rows and cluster contents correspond in both directions |
| ClusterDetailView.SelectedItem | grapes/ui/cluster_detail_view.py:202-219 | no cluster, or a cursor past the rows, selects nothing |
| ClusterDetailView.LookupKey | grapes/ui/cluster_detail_view.py:224-257 | parsing a row key: after `svc_`, the rest is a service name; after `task_`, one split on `_` gives the service name and the task id; after `container_`, two splits give the service name, task id and container name. Each is looked up as the first match, and a key that does not parse or match selects nothing; `ServiceKeyLookup`, `TaskKeyLookup`, `ContainerKeyLookup` and `KeyRoundTrip` prove what it returns |
| ClusterDetailView.ServiceKeyLookup | grapes/ui/cluster_detail_view.py:229-234 | a `svc_<name>` key selects the first service named so, or nothing |
| ClusterDetailView.FirstTaskWithIdUnique | grapes/ui/cluster_detail_view.py:242-244 | with distinct task ids, the task search by id finds that task |
| ClusterDetailView.FirstContainerNamedUnique | grapes/ui/cluster_detail_view.py:255-257 | with distinct container names, the search by name finds that container |
| ClusterDetailView.FindServiceTaskUnique | grapes/ui/cluster_detail_view.py:238-244 | with distinct names and ids, the service/task search finds the exact pair |
| ClusterDetailView.FindTaskContainerUnique | grapes/ui/cluster_detail_view.py:253-257 | with distinct ids and names, the task/container search finds the exact pair |
| ClusterDetailView.FindServiceTaskContainerUnique | grapes/ui/cluster_detail_view.py:249-257 | the three-level search finds the exact service, task and container |
| ClusterDetailView.TaskKeyLookup | grapes/ui/cluster_detail_view.py:235-244 | the key written for a task row parses back to that service and task, provided the service name has no `_` |
| ClusterDetailView.ContainerKeyLookup | grapes/ui/cluster_detail_view.py:245-257 | the key written for a container row parses back to that service, task and container, provided the service name and task id have no `_` |
| ClusterDetailView.KeyRoundTrip | grapes/ui/cluster_detail_view.py:202-261 | with the cursor on any row of a well-named cluster, the key lookup returns exactly the item that row was written for |
| ClusterDetailView.DetailView.constructor | grapes/ui/cluster_detail_view.py:17-18 | no cluster, columns not ready, empty table |
| ClusterDetailView.DetailView.OnMount | grapes/ui/cluster_detail_view.py:25-43 | columns become ready and the table shows the current cluster |
| ClusterDetailView.DetailView.SetCluster | grapes/ui/cluster_detail_view.py:45-47 | the table is re-rendered for the new cluster when the columns are ready and the value changed |
| ClusterDetailView.DetailView.AddRow | grapes/ui/cluster_detail_view.py:79-166 | appends exactly the row for one service, task or container |
| ClusterDetailView.DetailView.AddTaskRows | grapes/ui/cluster_detail_view.py:71-76 | appends a task row followed by its container rows when it has more than one container |
| ClusterDetailView.DetailView.AddTasksRows | grapes/ui/cluster_detail_view.py:70-76 | appends the rows of all the service's tasks in order |
| ClusterDetailView.DetailView.AddServiceRows | grapes/ui/cluster_detail_view.py:66-76 | appends a service row followed by all of its nested rows |
| ClusterDetailView.DetailView.UpdateTable | grapes/ui/cluster_detail_view.py:49-77 | once the columns are ready, the table is exactly the rows for the current cluster |
| ClusterDetailView.DetailView.GetSelectedItem | grapes/ui/cluster_detail_view.py:202-261 | `get_selected_item` with the cursor on a given row: `SelectedItem` applied to the widget's cluster and its current rows |
| TaskView.ShortStatus | ecs_monitor/ui/task_view.py:204 | the first four characters of the status, or all of it when shorter |
| TaskView.ShortStatusBound | ecs_monitor/ui/task_view.py:204 | the short status has at most four characters and equals a status of four or fewer |
| TaskView.TaskStatusStyling | ecs_monitor/ui/task_view.py:202-212 | the coloured short status, with the colour chosen by the full status |
| TaskView.TaskStatusStylingExamples | ecs_monitor/ui/task_view.py:202-212 | RUNNING becomes `[green]RUNN[/green]`; a three-letter status stays whole and dim |
| TaskView.HealthStyling | ecs_monitor/ui/task_view.py:190-200 | the health symbol, coloured by health |
| TaskView.ItemKey | ecs_monitor/ui/task_view.py:139-188 | the row keys: `task_`, the task id, `_` and the container's index in decimal for a container row; `task_` and the task id alone for a task without containers; `TaskRowKeysDistinct` and `KeyRoundTrip` prove what they identify |
| TaskView.ItemRow | ecs_monitor/ui/task_view.py:139-188 | the eight cells of a row. The first container's row starts with the task's short id, status, health and age, later container rows with four empty cells, and each container row goes on with the container's name, CPU, memory and health. A task without containers gets its four task cells and four `-` |
| TaskView.ContainerRows | ecs_monitor/ui/task_view.py:139-172 | one row per container, the i-th carrying the container's index |
| TaskView.TaskItems | ecs_monitor/ui/task_view.py:145-188 | the rows of one task: one row per container, in order, or a single bare task row when it has no containers; `TaskRowsShape` states the shape of those rows |
| TaskView.TaskRowsShape | ecs_monitor/ui/task_view.py:137-187 | a task without containers is one `task_<id>` row with `-` cells; otherwise row i has key `task_<id>_<i>` and container i's cells, and only row 0 repeats the task's cells |
| TaskView.TaskRowKeysDistinct | ecs_monitor/ui/task_view.py:171 | the container rows of one task have distinct keys |
| TaskView.TasksItemsAppend | ecs_monitor/ui/task_view.py:137 | the rows of two task lists are the rows of each, concatenated |
| TaskView.TasksItemsSound | ecs_monitor/ui/task_view.py:137-187 | every row stands for a task of the service, or for one of its containers at a valid index |
| TaskView.TasksItemsComplete | ecs_monitor/ui/task_view.py:137-187 | every container-less task and every container of every task gets a row |
| TaskView.ViewItems | ecs_monitor/ui/task_view.py:134-188 | the entities of the rows `_update_table` adds after clearing the table: none without a service, otherwise the rows of each task in order; `ViewItemsContents` proves this both ways |
| TaskView.ViewItemsContents | ecs_monitor/ui/task_view.py:134-187 | no service gives an empty table; otherwise rows and tasks correspond in both directions |
| TaskView.ParseKey | ecs_monitor/ui/task_view.py:237-243 | a key parses exactly when it contains `_`; the task id and optional digit index are then read as `split("_", 2)` does |
| TaskView.FirstMatchingTask | ecs_monitor/ui/task_view.py:246-247 | none exactly when no task's id equals or starts with the parsed id; otherwise the first task in the service's order whose id does, with no earlier task matching |
| TaskView.LookupKey | ecs_monitor/ui/task_view.py:234-253 | nothing for a key without `_`. Otherwise the task is `FirstMatchingTask` of the parsed id, so the first task whose id equals or starts with it. The container is that task's container at the parsed index when the key carries a digit index below the container count, and None otherwise. A returned task belongs to the service and a returned container to that task |
| TaskView.SelectedTaskAndContainer | ecs_monitor/ui/task_view.py:223-257 | no service, or a cursor past the rows, selects nothing |
| TaskView.LookupWithoutMatch | ecs_monitor/ui/task_view.py:246-252 | when no task matches the parsed id, nothing is selected |
| TaskView.PrefixMatchPicksEarlierTask | ecs_monitor/ui/task_view.py:247 | the `startswith` test lets an earlier task `abc` capture the row of a later task `ab` |
| TaskView.FirstMatchingTaskOwn | ecs_monitor/ui/task_view.py:246-247 | when no earlier task's id starts with task k's id, the search finds task k |
| TaskView.ContainerKeyParses | ecs_monitor/ui/task_view.py:237-243 | `task_<id>_<i>` parses to id and index i when the id has no `_` |
| TaskView.BareKeyParses | ecs_monitor/ui/task_view.py:237-243 | `task_<id>` parses to the id with no index |
| TaskView.KeyRoundTrip | ecs_monitor/ui/task_view.py:223-257 | when ids are distinguishable, the cursor on any row selects exactly the task and container that row was written for |
| TaskView.PadRight | ecs_monitor/ui/task_view.py:113 | `:<w` pads with spaces to width w and never truncates |
| TaskView.HeaderLines | ecs_monitor/ui/task_view.py:89-94 | the three header lines: the bold service name; the status, then the desired and running counts; then the task definition. `HeaderLinesRecovered` proves `HeaderText` splits back into exactly these lines |
| TaskView.HeaderText | ecs_monitor/ui/task_view.py:85-94 | no service gives the "No service selected" text |
| TaskView.HeaderLinesRecovered | ecs_monitor/ui/task_view.py:89-94 | the header splits back into its three lines (name, status and counts, task definition) |
| TaskView.DeploymentsLines | ecs_monitor/ui/task_view.py:110-115 | a heading, then one line per deployment, in order |
| TaskView.DeploymentLine | ecs_monitor/ui/task_view.py:113-115 | one deployment line: two spaces, the status padded to 10 characters, ` - `, the display status padded to 14, ` - `, and the task definition |
| TaskView.DeploymentsText | ecs_monitor/ui/task_view.py:106-117 | the section is empty exactly when there is no service or it has no deployments |
| TaskView.DeploymentLinesRecovered | ecs_monitor/ui/task_view.py:110-117 | splitting the rendered section at newlines gives back its heading and deployment lines |
| TaskView.JoinWithPrefix | ecs_monitor/ui/task_view.py:117 | a newline join starts with its first line |
| TaskView.DetailView.constructor | ecs_monitor/ui/task_view.py:30-31 | no service, columns not ready, empty header, deployments and table |
| TaskView.DetailView.UpdateHeader | ecs_monitor/ui/task_view.py:74-94 | once ready, the header is the text for the current service |
| TaskView.DetailView.UpdateDeployments | ecs_monitor/ui/task_view.py:96-117 | once ready, the section is the text for the current service |
| TaskView.DetailView.AddRow | ecs_monitor/ui/task_view.py:140-187 | appends exactly one row |
| TaskView.DetailView.AddTaskRows | ecs_monitor/ui/task_view.py:137-187 | appends the rows of one task |
| TaskView.DetailView.UpdateTable | ecs_monitor/ui/task_view.py:119-188 | once ready, the table is exactly the rows for the current service |
| TaskView.DetailView.OnMount | ecs_monitor/ui/task_view.py:40-66 | columns ready; header, deployments and table all show the current service |
| TaskView.DetailView.SetService | ecs_monitor/ui/task_view.py:68-72 | all three parts re-render for a changed service once the columns are ready |
| TaskView.DetailView.GetSelectedTaskAndContainer | ecs_monitor/ui/task_view.py:223-257 | `get_selected_task_and_container` with the cursor on a given row: `SelectedTaskAndContainer` applied to the widget's service and its current rows |
| ServiceView.ServiceRow | ecs_monitor/ui/service_view.py:57-84 | one `add_row` call: keyed by the service name, with the name, the status (green when ACTIVE, yellow otherwise), the tasks text, the health text coloured by health, and the deployment status |
| ServiceView.ListRows | ecs_monitor/ui/service_view.py:52-84 | one row per service, in order, keyed by name |
| ServiceView.RowStyling | ecs_monitor/ui/service_view.py:57-76 | status green when ACTIVE, else yellow; health text green when healthy, red when unhealthy, yellow on a warning and dim otherwise |
| ServiceView.SelectedService | ecs_monitor/ui/service_view.py:86-100 | a returned service is listed and its name is the cursor row's key; none only when no service has that key |
| ServiceView.ServiceToSelect | ecs_monitor/ui/service_view.py:102-118 | nothing for an empty list; nothing only when the key search fails and the cursor is past the list; otherwise a listed service |
| ServiceView.SelectOnOwnRows | ecs_monitor/ui/service_view.py:102-118 | on its own rows, Enter on a row in range selects a service with that row's name, and exactly that service when names are distinct |
| ServiceView.SelectPastEnd | ecs_monitor/ui/service_view.py:102-118 | on its own rows, nothing is selected exactly when the cursor is past the end |
| ServiceView.IndexFallback | ecs_monitor/ui/service_view.py:114-118 | when no name matches, the index fallback takes the service at the cursor |
| ServiceView.ServiceList.constructor | ecs_monitor/ui/service_view.py:28 | empty list and table |
| ServiceView.ServiceList.UpdateTable | ecs_monitor/ui/service_view.py:52-84 | the table becomes the rows of the current services |
| ServiceView.ServiceList.GetSelectedService | ecs_monitor/ui/service_view.py:86-100 | `get_selected_service` with the cursor on a given row: `SelectedService` applied to the widget's services and its current rows |
| ServiceView.ServiceList.SetServices | ecs_monitor/ui/service_view.py:48-50 | assigning the list always re-renders the table |
| ServiceView.ServiceList.ActionSelectService | ecs_monitor/ui/service_view.py:102-118 | posts the service chosen by key, or else by index |
| ServiceView.ServiceList.OnDataTableRowSelected | ecs_monitor/ui/service_view.py:125-131 | posts the first service named by the row key |
| Metrics.BuildServiceMetricQueries | ecs_monitor/aws/metrics.py:162-223 | `_build_service_metric_queries`: for each service in order, a CPUUtilization query and then a MemoryUtilization query, with ids `svc_cpu_` or `svc_mem_` plus the service name, both passed through `sanitize_metric_id`; `ServiceQueriesLayout` proves where each query sits |
| Metrics.BuildContainerMetricQueries | ecs_monitor/aws/metrics.py:225-288 | `_build_container_metric_queries`: for each (task, container) pair in order, a CpuUtilized query and then a MemoryUtilized query, with sanitized ids built from the task's short id and the container name; `ContainerQueriesLayout` proves where each query sits |
| Metrics.ServiceQueriesLayout | ecs_monitor/aws/metrics.py:162-223 | two queries per service, CPU at 2i and memory at 2i+1 |
| Metrics.ContainerQueriesLayout | ecs_monitor/aws/metrics.py:225-288 | two queries per (task, container) pair, CPU then memory |
| Metrics.QueryIdsLegal | ecs_monitor/aws/metrics.py:162-288 | every query id is a legal CloudWatch id, and service ids keep their `svc_cpu_`/`svc_mem_` prefix |
| Metrics.ServiceIdCollision | ecs_monitor/aws/metrics.py:162-223 | services whose names differ only in punctuation or case get the same query id |
| Metrics.ContainersToFetch | ecs_monitor/aws/metrics.py:126-142 | the pairs `_fetch_container_metrics` collects: every container of every RUNNING task, walking services, tasks and containers in order; `ContainersToFetchMembers` proves a pair is collected exactly when its task is RUNNING and in the cluster |
| Metrics.TaskPairs | ecs_monitor/aws/metrics.py:135-142 | a RUNNING task contributes each of its containers, in order; any other task contributes none |
| Metrics.TasksPairsMembers | ecs_monitor/aws/metrics.py:135-142 | a pair is collected exactly when its task is listed, RUNNING, and holds the container |
| Metrics.ServicesPairsMembers | ecs_monitor/aws/metrics.py:133-142 | the same across all services |
| Metrics.ContainersToFetchMembers | ecs_monitor/aws/metrics.py:126-142 | the same for a cluster |
| Metrics.Batches | ecs_monitor/aws/metrics.py:306-307 | `queries[i : i + 500]` for `i` in `range(0, n, 500)`: there are ceil(n/500) batches, each holds 1 to 500 queries, and together they give back the queries in order (`BatchesProperties`, `BatchSlice`) |
| Metrics.BatchesProperties | ecs_monitor/aws/metrics.py:306-307 | the batches concatenate back to the query list, each holds 1 to 500 queries, and there are ceil(n/500) of them |
| Metrics.BatchSlice | ecs_monitor/aws/metrics.py:306-307 | batch k is `queries[500k : 500k+500]` |
| Metrics.BatchesStep | ecs_monitor/aws/metrics.py:306-307 | the batches from offset i are the slice at i followed by the batches from i+500 |
| Metrics.FlattenMembers | ecs_monitor/aws/metrics.py:306-307 | a query lies in the concatenation exactly when it lies in some batch |
| Metrics.SingleBatch | ecs_monitor/aws/metrics.py:290-332 | up to 500 queries make one call, and its answer alone determines the map |
| Metrics.ApplyResults | ecs_monitor/aws/metrics.py:316-324 | the results of one successful call written into the map in order, each id getting the result's first value or None; `ApplyResultsLast` and `ApplyResultsOther` prove the last result with an id decides its value and other ids keep theirs |
| Metrics.ApplyResultsLast | ecs_monitor/aws/metrics.py:316-324 | a returned id maps to the first value of the last result carrying it, or to none when that result has no values |
| Metrics.ApplyResultsOther | ecs_monitor/aws/metrics.py:316-324 | ids not returned keep their earlier entry |
| Metrics.MarkNone | ecs_monitor/aws/metrics.py:326-330 | on a failed call, every query id of the batch is set to None in the map; `MarkNoneLookup` proves those ids map to None and the others keep their value |
| Metrics.MarkNoneLookup | ecs_monitor/aws/metrics.py:326-330 | a failed call maps each of its query ids to none and leaves other ids alone |
| Metrics.FoldBatches | ecs_monitor/aws/metrics.py:290-332 | the map after the calls for the batches in order, starting from the empty map, with each answer applied by `ApplyResults` or, for a failure, by `MarkNone` |
| Metrics.FetchAll | ecs_monitor/aws/metrics.py:290-332 | what `_fetch_metrics_batched` returns: the fold over the 500-query batches of the queries; `FetchMetricsBatched` computes exactly this and `FetchAllFailed` and `SingleBatch` prove what it gives |
| Metrics.ApplyBatchUntouched | ecs_monitor/aws/metrics.py:313-330 | a call that neither failed on a batch holding the id nor answered with a result carrying it leaves that id's entry, or its absence, unchanged |
| Metrics.FoldUntouchedSuffix | ecs_monitor/aws/metrics.py:306-332 | when no call from batch `n` on writes an id, that id's entry after all calls is its entry after the first `n` calls |
| Metrics.FoldFailedUnlessOverwritten | ecs_monitor/aws/metrics.py:306-332 | over any mix of answered and failed calls, an id of a failed batch maps to None when no later call writes it |
| Metrics.FoldAnsweredUnlessOverwritten | ecs_monitor/aws/metrics.py:306-332 | over any mix of calls, an id answered in batch `n` maps to the first value of its last result there when no later call writes it |
| Metrics.FoldNeverTouched | ecs_monitor/aws/metrics.py:290-332 | an id no call writes is absent from the returned map |
| Metrics.FoldAllFailed | ecs_monitor/aws/metrics.py:290-332 | when every call fails, the map holds exactly the queried ids, all with none |
| Metrics.FetchAllFailed | ecs_monitor/aws/metrics.py:290-332 | the same for the batched fetch of a query list |
| Metrics.FetchMetricsBatched | ecs_monitor/aws/metrics.py:290-332 | the loop makes exactly the batch calls, in order, and returns the folded map |
| Metrics.Truncate | ecs_monitor/aws/metrics.py:383 | `int()` truncates toward zero, at distance below one from the value |
| Metrics.AttachMetricsToServices | ecs_monitor/aws/metrics.py:334-354 | each service gets the CPU and memory value looked up under its own ids, or none |
| Metrics.AttachServices | ecs_monitor/aws/metrics.py:334-354 | the service list keeps its length |
| Metrics.AttachMetricsToContainers | ecs_monitor/aws/metrics.py:356-385 | the containers of RUNNING tasks get their CPU and their truncated memory value from the map, None where the map has none, and nothing else changes; `ContainerAttachEffect` proves this row by row |
| Metrics.ContainerAttachEffect | ecs_monitor/aws/metrics.py:356-385 | only containers of RUNNING tasks change, and only in their CPU and memory; memory is the truncated value, and nothing else in the cluster moves |
| Metrics.ClusterWithMetrics | ecs_monitor/aws/metrics.py:80-95 | the cluster after `fetch_metrics_for_cluster`: service values always, when there are services, then container values when Container Insights is enabled and there are running containers; `FetchShape`, `DisabledLeavesContainers` and `ServiceValues` prove what it gives |
| Metrics.MetricCalls | ecs_monitor/aws/metrics.py:80-160 | the GetMetricData calls `fetch_metrics_for_cluster` makes, in order: the service batches, then the container batches only when Container Insights is enabled, with no call for an empty query list; `FetchShape` relates them to the cluster |
| Metrics.FetchShape | ecs_monitor/aws/metrics.py:80-160 | no services means no service call and no containers means no container call; with insights off only service calls are made; the cluster changes only in its services |
| Metrics.DisabledLeavesContainers | ecs_monitor/aws/metrics.py:80-95 | with insights off, no task or container is touched |
| Metrics.ServiceValues | ecs_monitor/aws/metrics.py:97-124 | each service's values come from the batched fetch of the service queries |
| Metrics.MetricsFetcher.constructor | ecs_monitor/aws/metrics.py:24-35 | starts with no cached insights answer |
| Metrics.ProbeEnabled | ecs_monitor/aws/metrics.py:46-71 | Container Insights counts as enabled exactly when the probe returned at least one datapoint; a failed probe means disabled |
| Metrics.CachedInsights | ecs_monitor/aws/metrics.py:73-78 | `insights_enabled`: the cached flag when there is one, otherwise the probe's answer |
| Metrics.MetricsFetcher.CheckContainerInsights | ecs_monitor/aws/metrics.py:46-71 | enabled exactly when the probe returned at least one datapoint; a failed probe means disabled; the answer is cached |
| Metrics.MetricsFetcher.InsightsEnabled | ecs_monitor/aws/metrics.py:73-78 | probes only when nothing is cached, and then caches the answer |
| Metrics.MetricsFetcher.FetchMetricsForCluster | ecs_monitor/aws/metrics.py:80-95 | returns the cluster with metrics and the calls made, using the cached or probed insights flag |
| GrapesFlow.FetchClusterList | grapes/ui/app.py:199-210 | `_fetch_cluster_list`: start the listing worker unless a worker is running; `SkipIfRunning` proves the call is a no-op while one runs |
| GrapesFlow.FetchClusterData | grapes/ui/app.py:225-239 | `_fetch_cluster_data`: nothing without a selected cluster or while a worker runs, otherwise start the data worker |
| GrapesFlow.Refresh | grapes/ui/app.py:457-462 | `action_refresh`: request the cluster list, then the selected cluster's data when there is one (`RefreshRules`) |
| GrapesFlow.PeriodicRefresh | grapes/ui/app.py:190-197 | `_periodic_refresh`: the same requests, made only when loading has finished and the main view shows |
| GrapesFlow.FocusClusters | grapes/ui/app.py:418-426 | `_focus_clusters_panel`: the cluster list becomes the focused panel and nothing else changes |
| GrapesFlow.FocusDetail | grapes/ui/app.py:428-436 | `_focus_detail_panel`: the detail table becomes the focused panel and nothing else changes |
| GrapesFlow.SelectCluster | grapes/ui/app.py:357-392 | `_select_cluster`: record the cluster as selected, mark its name in the list, point the API clients at it, request its data, and focus the detail panel when asked; `SelectDeselectRules` proves the resulting state |
| GrapesFlow.DeselectCluster | grapes/ui/app.py:394-416 | `_deselect_cluster`: clear the selection, the list marker and the detail table, and focus the cluster list |
| GrapesFlow.GoBack | grapes/ui/app.py:450-455 | `action_go_back`: deselect when the detail panel has the focus and a cluster is selected, otherwise do nothing (`GoBackRules`) |
| GrapesFlow.FetchClustersWorker | grapes/ui/app.py:212-223 | `_fetch_clusters_worker`: the listed clusters, or the empty list when listing raised (`FailedListingEmpties`) |
| GrapesFlow.AutoSelect | grapes/ui/app.py:302-312 | the initial-load choice: the first cluster with the configured name, if there is one; otherwise the only cluster; otherwise focus on the list. A configured name that matches nothing changes nothing (`AutoSelectConfigured`, `AutoSelectUnconfigured`) |
| GrapesFlow.ClustersFetchResult | grapes/ui/app.py:272-326 | `_handle_clusters_fetch_result`: the worker ends; a listing replaces the clusters and the list's clusters, ends loading, and on the first load with nothing selected makes the auto-selection; a failure or no listing changes nothing else (`ListingRules`) |
| GrapesFlow.ClusterDataResult | grapes/ui/app.py:328-347 | `_handle_cluster_data_result`: the worker ends; fresh cluster data replaces the selected cluster and the detail table's cluster; anything else changes nothing else (`DataResultRules`) |
| GrapesFlow.DataWorkerResult | grapes/ui/app.py:241-263 | what `_fetch_cluster_data_worker` returns: None when fetching the cluster raised; otherwise the cluster with its metrics and the probe's Container Insights answer (`FailedDataFetchKeepsSelection`) |
| GrapesFlow.ConsoleUrl | grapes/ui/app.py:464-493 | `action_open_console`: nothing without a selected cluster. Otherwise the URL of the selected container, then task, then service, falling back to the cluster's URL, and the cluster's URL when the detail view cannot be asked (`ConsoleUrlChoice`, `ConsoleUrlOfRow`) |
| GrapesFlow.InitialValid | grapes/ui/app.py:90-96 | the initial state (loading view, clusters panel, nothing selected) satisfies the invariant and starts loading with no worker |
| GrapesFlow.RequestsKeepValid | grapes/ui/app.py:190-239 | every request and navigation handler keeps the invariant: loading matches the loading view, and a marked name or shown detail implies a selection |
| GrapesFlow.ResultsKeepValid | grapes/ui/app.py:272-347 | both worker-result handlers keep the invariant |
| GrapesFlow.SkipIfRunning | grapes/ui/app.py:199-239 | a fetch is skipped while a worker runs, and a data fetch without a selection does nothing; otherwise the named worker starts |
| GrapesFlow.RefreshRules | grapes/ui/app.py:190-197 | the periodic refresh does nothing while loading or off the main view; otherwise it acts like `r`, which fetches the cluster list |
| GrapesFlow.FailedListingEmpties | grapes/ui/app.py:212-223 | a failed listing is delivered as an empty list, which empties the list widget |
| GrapesFlow.ListingRules | grapes/ui/app.py:272-300 | a listing replaces the clusters; the first one leaves the loading view; an error or empty result only clears the worker |
| GrapesFlow.AutoSelectConfigured | grapes/ui/app.py:302-312 | on first load with a configured name, the first cluster of that name is selected, focused and fetched; with no such cluster nothing is selected |
| GrapesFlow.AutoSelectUnconfigured | grapes/ui/app.py:308-312 | on first load without a configured cluster, a single cluster is selected automatically; otherwise the clusters panel keeps focus |
| GrapesFlow.NoAutoSelectOverSelection | grapes/ui/app.py:302-312 | an existing selection and focus survive a listing |
| GrapesFlow.SelectDeselectRules | grapes/ui/app.py:357-416 | selecting records the cluster in the list, the detail and the client, moves the focus only when asked, and starts a data fetch if idle; deselecting clears all of that and focuses the list |
| GrapesFlow.GoBackRules | grapes/ui/app.py:450-455 | Escape deselects only from the detail panel with a selection, does nothing otherwise, and is idempotent |
| GrapesFlow.DataResultRules | grapes/ui/app.py:328-347 | a data result clears the worker; a cluster replaces the selection and the detail; anything else changes nothing more |
| GrapesFlow.LateResultReselects | grapes/ui/app.py:328-347 | a data result that arrives after Escape reselects the cluster without re-marking the list or moving the focus |
| GrapesFlow.FailedDataFetchKeepsSelection | grapes/ui/app.py:241-263 | a failed data fetch yields none and leaves the selection as it was |
| GrapesFlow.ConsoleUrlChoice | grapes/ui/app.py:464-493 | there is a URL exactly when a cluster is selected; with no row selected it is the cluster URL |
| GrapesFlow.ConsoleUrlOfRow | grapes/ui/app.py:464-493 | for the cursor on any row of a well-named cluster, the URL names that row's service, task or container |
| GrapesApp.App.constructor | grapes/ui/app.py:90-128 | the initial state, which satisfies the invariant |
| GrapesApp.App.OnMount | grapes/ui/app.py:160-188 | mounting starts the cluster-list fetch |
| GrapesApp.App.FetchClusterList | grapes/ui/app.py:199-210 | performs the list-fetch transition |
| GrapesApp.App.FetchClusterData | grapes/ui/app.py:225-239 | performs the data-fetch transition |
| GrapesApp.App.ActionRefresh | grapes/ui/app.py:457-462 | performs the refresh transition |
| GrapesApp.App.PeriodicRefresh | grapes/ui/app.py:190-197 | performs the periodic-refresh transition |
| GrapesApp.App.FocusClustersPanel | grapes/ui/app.py:418-426 | focuses the clusters panel |
| GrapesApp.App.FocusDetailPanel | grapes/ui/app.py:428-436 | focuses the detail panel |
| GrapesApp.App.SelectCluster | grapes/ui/app.py:357-392 | performs the selection transition |
| GrapesApp.App.DeselectCluster | grapes/ui/app.py:394-416 | performs the deselection transition |
| GrapesApp.App.ActionGoBack | grapes/ui/app.py:450-455 | performs the go-back transition |
| GrapesApp.App.OnClustersFetchResult | grapes/ui/app.py:272-326 | the search loop for the configured cluster and the selection reach the listing transition's state |
| GrapesApp.App.OnClusterDataResult | grapes/ui/app.py:328-355 | performs the data-result transition |
| GrapesApp.App.RunDataWorker | grapes/ui/app.py:241-263 | the worker returns the fetched cluster with metrics attached, or none, and records the insights flag |
| GrapesApp.App.ActionOpenConsole | grapes/ui/app.py:464-493 | opens the URL of the selected item, and nothing without a selected cluster |
| MonitorFlow.RefreshData | ecs_monitor/ui/app.py:161-172 | `refresh_data`, which `action_refresh` also calls: start the exclusive worker unless it runs (`SkipIfRunning`) |
| MonitorFlow.PeriodicRefresh | ecs_monitor/ui/app.py:156-159 | `_periodic_refresh`: refresh only once loading has finished |
| MonitorFlow.ShowServiceList | ecs_monitor/ui/app.py:245-254 | `_show_service_list`: clear the selected service and show a list of the cluster's services, or of none without a cluster |
| MonitorFlow.ShowServiceDetail | ecs_monitor/ui/app.py:256-268 | `_show_service_detail`: select the service and show its detail view |
| MonitorFlow.UpdateServiceList | ecs_monitor/ui/app.py:279-286 | `_update_service_list`: a mounted list gets the cluster's current services; without a mounted list or a cluster nothing changes |
| MonitorFlow.UpdateServiceDetail | ecs_monitor/ui/app.py:288-302 | `_update_service_detail`: rebind the selection, and a mounted detail view, to the first service in the fresh cluster with the selected name; when no service has that name the stale one stays |
| MonitorFlow.UpdateCurrentView | ecs_monitor/ui/app.py:270-277 | `_update_current_view`: update the detail when a service is selected, the list otherwise |
| MonitorFlow.WorkerDone | ecs_monitor/ui/app.py:203-243 | `on_worker_state_changed`: the worker ends; a fetched cluster replaces the stored one, the first result ends loading and shows the list, and the current view is updated; no result changes nothing else (`FirstResult`, `LaterResult`, `NoResultKeepsState`) |
| MonitorFlow.GoBack | ecs_monitor/ui/app.py:308-315 | `action_go_back` and the `TaskViewBack` handler: back to the service list when a service is selected, otherwise nothing (`NavigationRules`) |
| MonitorFlow.WorkerInsights | ecs_monitor/ui/app.py:174-201 | the application's Container Insights flag after the worker: probed only while no cluster has been loaded, kept afterwards (`InsightsBeforeFirstLoad`) |
| MonitorFlow.CacheAfterCheck | ecs_monitor/ui/app.py:174-201 | the fetcher's cached flag after the worker: set from the probe while no cluster has been loaded, kept afterwards |
| MonitorFlow.WorkerResult | ecs_monitor/ui/app.py:174-201 | what `_fetch_cluster_data` returns: None when fetching the cluster raised; otherwise the cluster with its metrics, container metrics as the fetcher's flag says, and the application's flag |
| MonitorFlow.CopyUrl | ecs_monitor/ui/app.py:322-365 | `action_copy_url`: nothing without a cluster. In the detail view the container's, else the task's, else the service's URL; in the list the selected service's URL, else the cluster's (`CopyUrlChoice`, `CopyUrlOfTaskRow`, `CopyUrlOfServiceRow`) |
| MonitorFlow.InitialValid | ecs_monitor/ui/app.py:66-70 | the initial state is loading with no worker and satisfies the invariant |
| MonitorFlow.TransitionsKeepValid | ecs_monitor/ui/app.py:161-315 | every transition keeps the invariant: loading exactly until a cluster arrives, a selected service exactly when the detail is shown, and the shown list matches the cluster |
| MonitorFlow.SkipIfRunning | ecs_monitor/ui/app.py:156-172 | a refresh is skipped while the worker runs and the periodic refresh waits for the first load |
| MonitorFlow.NoResultKeepsState | ecs_monitor/ui/app.py:174-243 | a failed fetch yields none, and an empty or failed result only clears the worker |
| MonitorFlow.FirstResult | ecs_monitor/ui/app.py:203-243 | the first cluster ends loading and shows its service list |
| MonitorFlow.LaterResult | ecs_monitor/ui/app.py:203-243 | a later cluster replaces the old one; the shown service is resolved again by name, and the stale one is kept when the name is gone |
| MonitorFlow.NavigationRules | ecs_monitor/ui/app.py:245-315 | showing a service selects it; Escape from the detail goes back to the list, does nothing from the list, and is idempotent |
| MonitorFlow.InsightsBeforeFirstLoad | ecs_monitor/ui/app.py:174-201 | the insights probe runs only before the first cluster arrives; afterwards the stored flag and cache are reused |
| MonitorFlow.CopyUrlChoice | ecs_monitor/ui/app.py:322-365 | there is a URL exactly when a cluster is loaded, and it always starts with the cluster's console prefix |
| MonitorFlow.CopyUrlOfTaskRow | ecs_monitor/ui/app.py:322-365 | in the detail view, the URL names the task or container of the row under the cursor |
| MonitorFlow.CopyUrlOfServiceRow | ecs_monitor/ui/app.py:322-365 | in the list view, the URL names the service under the cursor, or the cluster past the end |
| MonitorApp.App.constructor | ecs_monitor/ui/app.py:66-100 | the initial state |
| MonitorApp.App.OnMount | ecs_monitor/ui/app.py:124-154 | mounting starts a refresh |
| MonitorApp.App.RefreshData | ecs_monitor/ui/app.py:161-172 | performs the refresh transition |
| MonitorApp.App.PeriodicRefresh | ecs_monitor/ui/app.py:156-159 | performs the periodic-refresh transition |
| MonitorApp.App.ShowServiceList | ecs_monitor/ui/app.py:245-254 | shows the list and clears the selection |
| MonitorApp.App.ShowServiceDetail | ecs_monitor/ui/app.py:256-268 | selects the service and shows its detail |
| MonitorApp.App.UpdateServiceList | ecs_monitor/ui/app.py:279-286 | refreshes the shown list from the cluster |
| MonitorApp.App.UpdateServiceDetail | ecs_monitor/ui/app.py:288-302 | the search loop re-resolves the selected service by name |
| MonitorApp.App.UpdateCurrentView | ecs_monitor/ui/app.py:270-277 | updates whichever view is shown |
| MonitorApp.App.OnWorkerStateChanged | ecs_monitor/ui/app.py:203-243 | performs the worker-result transition |
| MonitorApp.App.ActionGoBack | ecs_monitor/ui/app.py:312-315 | performs the go-back transition |
| MonitorApp.App.OnTaskViewBack | ecs_monitor/ui/app.py:308-310 | returns to the service list |
| MonitorApp.App.RunWorker | ecs_monitor/ui/app.py:174-201 | probes insights exactly when no cluster was loaded yet, and returns the fetched cluster with metrics, or none |
| MonitorApp.App.ActionCopyUrl | ecs_monitor/ui/app.py:322-365 | copies the URL chosen for the current view and row |

## Left out

- I/O and Textual plumbing are not modelled: compose, `query_one`, focus, `display`, `notify`, logging, the header widget, cursor visibility, bindings and the command palette. Widgets are mounted once and their tables always exist. The `query_one` failure branches are not taken.
- AWS access is not modelled. The ECS listing results, the CloudWatch answers and the insights probe are parameters (`Outcome`, an oracle function, `Probe`). `ECSFetcher`, `AWSClients`, the task-definition cache, time windows and progress callbacks are not part of this model.
- Threads and workers are a flag: grapes keeps the running worker's name, ECS Monitor a boolean. The `exclusive` option, Textual's PENDING state and races between workers are not modelled. As a consequence, in grapes `action_refresh`/`_periodic_refresh` the data fetch issued right after the list fetch starts nothing, because the list worker is already marked as running.
- The name dispatch in `on_worker_state_changed` (grapes/ui/app.py:265-270) is split into two result methods.
- The CloudWatch answers are a function from a batch to a response, so two identical batches get the same answer, which the real API does not promise. No lemma relies on this: each one is about one sequence of batches.
- Floating-point metric values are reals. `int()` on them is modelled as truncation toward zero.
- The source mutates service and container objects in place. The model returns updated values, so aliasing between the app's objects and the widgets' copies is not captured.
- Textual's cursor of `None` is not modelled: the cursor is a `nat`. An out-of-range cursor takes the path of the caught exception. The row-key API is assumed to return the key of the cursor row.
- Textual calls each watcher once at start-up; that call is not modelled.
- Textual's `DataTable.add_row` raises `DuplicateKey` when a row key repeats. That error path is not modelled: the modelled tables accept repeated keys. Keys repeat when two clusters or two services share a name. AWS keeps cluster names unique within a region and service names unique within a cluster, so this path is not reached in practice.
- Python truthiness of a cluster or service object is taken as "not None".
- `str.isdigit` is modelled on ASCII digits only. Unicode digits are not modelled.
- The empty-query early returns at ecs_monitor/aws/metrics.py:117-118 and 153-154 are not modelled. They cannot be reached, because the callers have already returned on empty input.
- `get_selected_service` raising on a cursor past the rows is modelled as None. Its only caller, `action_copy_url`, catches the exception and copies the cluster URL, which is what the model gives for None.
- The clipboard and browser effects of the copy and open actions are not modelled. The URL that would be copied or opened is returned instead.
- The debug console toggle and its watcher are not modelled, as they only change what is displayed.
- The cluster list's selection marker is kept byte for byte as it appears in the source (a mis-encoded `▶`).
- grapes.models, grapes' own metrics/console modules, and ecs_monitor.models' record classes are not part of this model. The records are modelled from their uses, and grapes is assumed to share ECS Monitor's console-link and metrics code.
- Metrics.AttachServices: its contract states only the length. The per-service values are stated by Metrics.AttachMetricsToServices and Metrics.ServiceValues.
