# Jira client decision logic, modelled in Dafny

The repository wraps the Jira REST API for a sprint-implementation skill. It ships
two versions of the client: the plugin version
(`plugins/jira-connector/skills/implement-sprint/jira_client.py`) and an older
single-file version (`skills/implement-sprint/jira_client.py`, with its
`get_issue.py` helper). Almost every method is one HTTP call. The local decisions
around those calls are modelled here:

- how the configuration files are merged, checked and reported;
- how the client is built from explicit arguments and configuration;
- which transition is chosen for a requested status name;
- which request bodies the write operations send;
- the first-board / first-active-sprint lookups and their short-circuits;
- how plain text is extracted from an Atlassian Document Format (ADF) description.

The network is an input. Each response the client reads (transition list, board
list, active sprints of a board, issues of a sprint) is a `Client.Response`: its
HTTP status and its payload, or a function from an id to one. A 4xx or 5xx status
is what `raise_for_status` rejects; it becomes `RemoteError(status)`, so a failed
fetch stays distinct from the "no board" and "no active sprint" absences. Each
write operation returns the request body it would send.
Configuration files are `map<string, string>` values. Python's falsy `None` and
`""` are both `""` for string arguments. A board id of `0` is falsy, as in Python.

Files, one module each:

- `wrappers.dfy`: `Option` and `Result`.
- `strings.dfy`: ASCII `Lower`, `Join` (Python's `str.join`) and `StartsWith`.
- `adf.dfy`: the ADF document shape, the one-paragraph document the client
  builds (`ParagraphDoc`), the extraction `GetDescriptionText` (nested loops)
  and its specification `DescriptionText`, with the lemmas about them.
- `config_maps.dfy`: Python truthiness of configuration keys and the ordered
  "missing keys" list.
- `client.dfy`: the `JiraClient` class and the transition search.
- `plugin_config.dfy`: configuration of the plugin version (two files).
- `legacy_config.dfy`: configuration of the older version (one file).

The two versions' `JiraClient` code is line for line the same:
`skills/implement-sprint/jira_client.py:52-198` matches
`plugins/jira-connector/skills/implement-sprint/jira_client.py:99-224, 270-289`.
The older version lacks `start_sprint`, `close_sprint`, `add_comment`, `get_comments`,
`create_issue`, `create_sprint` and `move_issues_to_sprint`.
So one class in `client.dfy` models both. The only difference is the
configuration map it is given. For the plugin version that map is
`PluginConfig.Merged`; for the older version it is the single file's contents.
Both `get_description_text` functions (`get_issue.py:12-24` and the plugin's
`jira_client.py:409-428`) are the same code. `Adf.GetDescriptionText` models both,
so they are output-equivalent.

## Model

| member | source | states |
|---|---|---|
| `Adf.GetDescriptionText` | skills/implement-sprint/get_issue.py:12-24 | the nested loops return exactly `DescriptionText`: the placeholder for a falsy description; otherwise the texts of the text nodes inside top-level paragraphs, joined by single spaces; the placeholder when none was collected |
| `Adf.ParagraphDocRoundTrip` | plugins/jira-connector/skills/implement-sprint/jira_client.py:409-428 | extracting the text of the one-paragraph, one-text-node document built for `s` (as at lines 151-160 and 303-313) gives back `s`, for every `s` |
| `Adf.PartsMembership` | skills/implement-sprint/get_issue.py:18-22 | a string is collected exactly when some text node of some top-level paragraph contributes it; both directions |
| `Adf.InlineTextsMembership` | skills/implement-sprint/get_issue.py:20-22 | inside one paragraph, a string is collected exactly when some text node contributes it |
| `Adf.PartsAppend` | skills/implement-sprint/get_issue.py:18-22 | the parts of two runs of blocks are the parts of the first followed by those of the second (document order) |
| `Adf.IgnoresNonParagraph` | skills/implement-sprint/get_issue.py:19 | inserting a top-level block that is not a paragraph anywhere leaves the extracted text unchanged |
| `Adf.IgnoresNonTextInline` | skills/implement-sprint/get_issue.py:21 | inserting a non-text inline node anywhere in a paragraph leaves the extracted text unchanged |
| `Adf.ConcatenatedBlocks` | skills/implement-sprint/get_issue.py:24 | when two runs of blocks both contribute text, the text of their concatenation is the first text, one space, then the second |
| `Adf.TwoParagraphs` | plugins/jira-connector/skills/implement-sprint/jira_client.py:421-428 | paragraphs "Hello" and "world" read as "Hello world" |
| `Adf.MissingTextKeyCountsAsPart` | skills/implement-sprint/get_issue.py:22-24 | a text node without a "text" key contributes "" and still counts as a part, so the result is "" and not the placeholder |
| `Adf.PlaceholderWithoutTextNodes` | skills/implement-sprint/get_issue.py:14-24 | a document with no text node inside any top-level paragraph reads as "No description" |
| `ConfigMaps.Missing` | skills/implement-sprint/jira_client.py:45 | the missing-key list is a subsequence of the required list, so it keeps the required order |
| `ConfigMaps.MissingMembership` | plugins/jira-connector/skills/implement-sprint/jira_client.py:85 | a key is listed as missing exactly when it is required and absent or empty |
| `ConfigMaps.NoneMissing` | skills/implement-sprint/jira_client.py:35 | nothing is missing exactly when every required key is truthy (`all(config.get(k) ...)`) |
| `Client.FirstMatch` | plugins/jira-connector/skills/implement-sprint/jira_client.py:180-184 | the index found is a transition whose target name matches ignoring case, and no earlier one matches; `None` only when no transition matches |
| `Client.FirstMatchIgnoresCase` | plugins/jira-connector/skills/implement-sprint/jira_client.py:182 | requests that agree after lower-casing select the same transition |
| `Client.DoneMatchesDone` | skills/implement-sprint/jira_client.py:134-137 | requesting "done" selects a transition whose target is named "Done" |
| `Client.TargetNamesAt` | plugins/jira-connector/skills/implement-sprint/jira_client.py:187 | the list of available names holds each transition's target name at its position |
| `Client.JiraClient.constructor` | plugins/jira-connector/skills/implement-sprint/jira_client.py:117-128 | the success path of construction (reached only through `Create`): the four fields are the resolved values and both URL prefixes are built from the domain |
| `Client.JiraClient.Create` | plugins/jira-connector/skills/implement-sprint/jira_client.py:115-128 | each field is the explicit argument when non-empty, else the configuration value; construction fails (`NotConfigured`) exactly when one of the four is empty; on success `baseUrl` is `https://<domain>/rest/api/3` and `agileUrl` is `https://<domain>/rest/agile/1.0` |
| `Client.JiraClient.UpdateIssue` | plugins/jira-connector/skills/implement-sprint/jira_client.py:142-167 | no request exactly when summary and description are both empty; otherwise `fields` holds exactly the supplied keys, the description as the one-paragraph document whose extracted text is the description |
| `Client.JiraClient.TransitionIssue` | plugins/jira-connector/skills/implement-sprint/jira_client.py:169-198 | a rejected transition listing (4xx/5xx) fails with `RemoteError` of its status; otherwise sends the id of the first case-insensitive match, and fails exactly when there is no match or that id is empty, the error listing every target name in order; a failure sends nothing |
| `Client.JiraClient.GetBoardForProject` | plugins/jira-connector/skills/implement-sprint/jira_client.py:200-211 | fails with `RemoteError` exactly when the board listing is rejected; otherwise the first board, or `None` exactly when the list is empty |
| `Client.JiraClient.GetActiveSprint` | plugins/jira-connector/skills/implement-sprint/jira_client.py:213-224 | fails with `RemoteError` exactly when the sprint listing is rejected; otherwise the first active sprint, or `None` exactly when the list is empty |
| `Client.JiraClient.GetActiveSprintIssues` | plugins/jira-connector/skills/implement-sprint/jira_client.py:270-289 | a rejected board, sprint or issue listing on the way fails with `RemoteError` of that status; a loaded but empty board list, or a loaded but empty active-sprint list of the first board, gives `None` (an absence, not an error); otherwise the first board's first active sprint with that sprint's issues |
| `Client.JiraClient.CreateIssue` | plugins/jira-connector/skills/implement-sprint/jira_client.py:332-364 | `fields` always holds project (the client's key), summary and issue type, and adds the description document only when a description is given |
| `Client.JiraClient.CreateSprint` | plugins/jira-connector/skills/implement-sprint/jira_client.py:366-388 | a non-zero board id is used as given and nothing is fetched; for a falsy id (0) a rejected board listing fails with `RemoteError`, an empty one fails with `NoBoard`, and otherwise the body uses the first board's id |
| `PluginConfig.Merged` | plugins/jira-connector/skills/implement-sprint/jira_client.py:40-53 | every key except `project_key` keeps the plugin file's value; `project_key` is the project file's value when that is non-empty, and otherwise the plugin file's |
| `PluginConfig.LoadConfig` | plugins/jira-connector/skills/implement-sprint/jira_client.py:46-53 | the in-place override yields exactly the merged configuration |
| `PluginConfig.IsConfigured` | plugins/jira-connector/skills/implement-sprint/jira_client.py:71-75 | true exactly when domain, email and token are set in the plugin file and a project key is set in the project file or the plugin file |
| `PluginConfig.GetConfigStatus` | plugins/jira-connector/skills/implement-sprint/jira_client.py:78-96 | missing credentials win and are listed; only then `PROJECT_NOT_CONFIGURED`, judged on the project file alone; otherwise `CONFIGURED (project: <project file key>)` |
| `PluginConfig.MissingCredentialsInFixedOrder` | plugins/jira-connector/skills/implement-sprint/jira_client.py:84-85 | the listed credentials are exactly the missing ones, in the order jira_domain, email, api_token |
| `PluginConfig.StatusConfiguredImpliesIsConfigured` | plugins/jira-connector/skills/implement-sprint/jira_client.py:71-96 | a status starting with CONFIGURED implies `is_configured` |
| `PluginConfig.ProjectKeyOnlyInPluginFile` | plugins/jira-connector/skills/implement-sprint/jira_client.py:88-94 | the converse fails: a project key only in the plugin file passes `is_configured`, yet the status is `PROJECT_NOT_CONFIGURED` |
| `PluginConfig.ClientFromConfigIffConfigured` | plugins/jira-connector/skills/implement-sprint/jira_client.py:115-125 | a client built without arguments from the merged configuration succeeds exactly when `is_configured` holds |
| `LegacyConfig.IsConfigured` | skills/implement-sprint/jira_client.py:31-35 | true exactly when all four of jira_domain, project_key, email, api_token are non-empty |
| `LegacyConfig.GetConfigStatus` | skills/implement-sprint/jira_client.py:38-49 | `NOT_CONFIGURED` for an empty file; `INCOMPLETE (missing: ...)` with a non-empty missing list when a key is missing; `CONFIGURED` when none is |
| `LegacyConfig.MissingInFixedOrder` | skills/implement-sprint/jira_client.py:44-45 | the listed keys are exactly the missing ones, in the order jira_domain, project_key, email, api_token |
| `LegacyConfig.ConfiguredIffStatusConfigured` | skills/implement-sprint/jira_client.py:31-49 | `is_configured()` holds exactly when the status is exactly `CONFIGURED` |
| `LegacyConfig.ClientFromConfigIffConfigured` | skills/implement-sprint/jira_client.py:68-78 | a client built without arguments succeeds exactly when `is_configured` holds |

## Left out

- HTTP: `requests.get/post/put`, `HTTPBasicAuth` and the headers are foreign calls. Each response is an input carrying its status, and `raise_for_status` on a read is the `RemoteError` path.
- The rejection of a write request itself (the `raise_for_status` after a `post`/`put`) is not modelled. The body is sent either way, and the model's result is that body; the rejection only turns the constant `True` or the echoed JSON into an exception. Requests that raise for other reasons (connection errors, timeouts) are not modelled either.
- Request URLs and the `issue_key` arguments that only go into URLs are not modelled. Only the two URL prefixes built at construction are.
- Configuration file I/O: `load_plugin_config`, `load_project_config`, `get_project_config_path`, `save_plugin_config`, `save_project_config`, `save_config`, and the older version's `load_config` (a plain file read). File contents are passed in as maps.
- `start_sprint`: it reads the clock twice and formats local time (`datetime.now()`) with a literal `Z`. Its body is not modelled.
- `get_issue`, `get_comments`, `add_comment`, `move_issues_to_sprint`, `close_sprint` only pass JSON through and are not modelled. `get_transitions`, `get_boards`, `get_sprints` and `get_sprint_issues` are the `Response` inputs of the operations that call them (the `.get(..., [])` default for a missing key is folded into the payload). The comment body `add_comment` sends is `Adf.ParagraphDoc`.
- The command line (`cmd_status`, `cmd_get_issue`, `cmd_transition`, `cmd_add_comment`, `main`, `get_issue.py`'s `main`, `sprint_status.py`) is printing and exit codes.
- `Strings.Lower`: ASCII case folding only. Python's `str.lower` also folds non-ASCII letters.
- JSON typing is not modelled. Configuration values are strings, and ADF nodes are objects of the expected shape. A non-object node, a non-list `content`, or a `null`/non-string `text` would raise in Python. A description that is `None` or `{}` is `None` here; any other empty-content document gives the same placeholder.
- Boards and sprints are never empty objects and always carry an `id`. Python would treat an empty board or sprint object as absent, and would raise on a missing `id`.
- `Client.JiraClient.TransitionIssue`: the error carries the requested status and the list of target names, not Python's formatted message with the list's `repr`.
- `Client.JiraClient.UpdateIssue`: the constant `True` the source returns is not modelled. `None` stands for "no request".
- `Client.JiraClient.CreateIssue`: the default issue type `"Task"` is not modelled (the caller gives the type), and the response is not modelled.
- `Client.JiraClient.Create`: the error is the fixed `NotConfigured`, as in the code. It does not name the missing fields.
