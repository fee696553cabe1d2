/**
 * The issue-tracker client. Every remote response the client reads is an input
 * here (the transition list of an issue, the board list of the project, the
 * active sprints of a board, the issues of a sprint), with its HTTP status; a
 * status the client rejects becomes a `RemoteError`. Every write is modelled by
 * the request body it would send.
 */
module Client {
  import opened Wrappers
  import opened Strings
  import opened ConfigMaps
  import opened Adf

  /** A workflow transition: its id and the name of the status it leads to (`t["to"]["name"]`). */
  datatype Transition = Transition(id: string, toName: string)
  datatype Board = Board(id: int, name: string)
  datatype Sprint = Sprint(id: int, name: string, state: string)
  datatype Issue = Issue(key: string, summary: string, status: string)
  datatype SprintIssues = SprintIssues(sprint: Sprint, issues: seq<Issue>)

  /** A value of the `fields` object of an issue request. */
  datatype Field =
    | Text(text: string)          // a plain string, such as "summary"
    | Document(doc: Doc)          // a rich-text field, such as "description"
    | ProjectRef(key: string)     // {"key": ...}
    | IssueTypeRef(name: string)  // {"name": ...}

  /** A response the client reads: its HTTP status and its (already decoded) payload. */
  datatype Response<T> = Response(status: int, body: T)

  /** `raise_for_status` raises for a client error (4xx) or a server error (5xx). */
  predicate Raises(status: int) {
    400 <= status < 600
  }

  /** The body of a sprint creation request. */
  datatype NewSprint = NewSprint(name: string, originBoardId: int)

  datatype ClientError =
    | NotConfigured                                              // "Jira not configured. ..."
    | CannotTransition(status: string, available: seq<string>)   // "Cannot transition to ..."
    | NoBoard                                                    // "No board found for project"
    | RemoteError(httpStatus: int)                               // the HTTPError of `raise_for_status`

  /** `explicit or config.get(key)`: an explicit argument wins unless it is falsy. */
  function Resolve(explicit: string, config: map<string, string>, key: string): string {
    if explicit != "" then explicit else Get(config, key)
  }

  /** A transition leads to the requested status when the names agree ignoring (ASCII) case. */
  predicate Matches(t: Transition, statusName: string) {
    Lower(t.toName) == Lower(statusName)
  }

  /** The index of the first transition, in list order, that leads to `statusName`. */
  function FirstMatch(ts: seq<Transition>, statusName: string): (r: Option<nat>)
    ensures r.Some? ==> r.value < |ts| && Matches(ts[r.value], statusName)
    ensures r.Some? ==> forall k :: 0 <= k < r.value ==> !Matches(ts[k], statusName)
    ensures r.None? ==> forall k :: 0 <= k < |ts| ==> !Matches(ts[k], statusName)
  {
    if ts == [] then None
    else if Matches(ts[0], statusName) then Some(0)
    else match FirstMatch(ts[1..], statusName)
      case None => None
      case Some(i) => Some(i + 1)
  }

  /** `[t["to"]["name"] for t in transitions]`. */
  function TargetNames(ts: seq<Transition>): (names: seq<string>)
    ensures |names| == |ts|
  {
    if ts == [] then [] else [ts[0].toName] + TargetNames(ts[1..])
  }

  lemma {:induction false} TargetNamesAt(ts: seq<Transition>, i: nat)
    requires i < |ts|
    ensures TargetNames(ts)[i] == ts[i].toName
  {
    if i > 0 { TargetNamesAt(ts[1..], i - 1); }
  }

  /** Requests that differ only in case select the same transition. */
  lemma {:induction false} FirstMatchIgnoresCase(ts: seq<Transition>, a: string, b: string)
    requires Lower(a) == Lower(b)
    ensures FirstMatch(ts, a) == FirstMatch(ts, b)
  {
    if ts != [] { FirstMatchIgnoresCase(ts[1..], a, b); }
  }

  /** Requesting "done" selects a transition whose target is named "Done". */
  lemma DoneMatchesDone(id: string)
    ensures FirstMatch([Transition(id, "Done")], "done") == Some(0)
  {
    assert "Done"[1..] == "one" && "done"[1..] == "one";
    assert Lower("Done") == [LowerChar('D')] + Lower("one");
    assert Lower("done") == [LowerChar('d')] + Lower("one");
  }

  class JiraClient {
    const domain: string
    const projectKey: string
    const email: string
    const apiToken: string
    /** The issue API prefix. */
    const baseUrl: string
    /** The agile (board and sprint) API prefix. */
    const agileUrl: string

    constructor (domain: string, projectKey: string, email: string, apiToken: string)
      requires domain != "" && projectKey != "" && email != "" && apiToken != ""
      ensures this.domain == domain && this.projectKey == projectKey
      ensures this.email == email && this.apiToken == apiToken
      ensures baseUrl == "https://" + domain + "/rest/api/3"
      ensures agileUrl == "https://" + domain + "/rest/agile/1.0"
    {
      this.domain := domain;
      this.projectKey := projectKey;
      this.email := email;
      this.apiToken := apiToken;
      baseUrl := "https://" + domain + "/rest/api/3";
      agileUrl := "https://" + domain + "/rest/agile/1.0";
    }

    /**
     * Client construction from explicit arguments ("" for an omitted one) and the
     * loaded configuration: each field is its argument or else the configuration's
     * value, and construction fails when any of the four is still empty.
     */
    static method Create(domain: string, projectKey: string, email: string, apiToken: string,
                         config: map<string, string>)
      returns (r: Result<JiraClient, ClientError>)
      ensures r.Success? <==>
              Resolve(domain, config, "jira_domain") != "" && Resolve(projectKey, config, "project_key") != "" &&
              Resolve(email, config, "email") != "" && Resolve(apiToken, config, "api_token") != ""
      ensures r.Failure? ==> r.error == NotConfigured
      ensures r.Success? ==> fresh(r.value)
      ensures r.Success? ==>
              r.value.domain == Resolve(domain, config, "jira_domain") &&
              r.value.projectKey == Resolve(projectKey, config, "project_key") &&
              r.value.email == Resolve(email, config, "email") &&
              r.value.apiToken == Resolve(apiToken, config, "api_token")
      ensures r.Success? ==>
              r.value.baseUrl == "https://" + r.value.domain + "/rest/api/3" &&
              r.value.agileUrl == "https://" + r.value.domain + "/rest/agile/1.0"
    {
      var d := Resolve(domain, config, "jira_domain");
      var p := Resolve(projectKey, config, "project_key");
      var e := Resolve(email, config, "email");
      var t := Resolve(apiToken, config, "api_token");
      if d == "" || p == "" || e == "" || t == "" {
        return Failure(NotConfigured);
      }
      var c := new JiraClient(d, p, e, t);
      return Success(c);
    }

    /**
     * The `fields` an issue update sends, or `None` when there is nothing to
     * update and no request is made (the call then just returns true).
     */
    method UpdateIssue(summary: string, description: string) returns (request: Option<map<string, Field>>)
      ensures request.None? <==> summary == "" && description == ""
      ensures request.Some? ==>
              request.value.Keys == (if summary != "" then {"summary"} else {}) +
                                    (if description != "" then {"description"} else {})
      ensures request.Some? && summary != "" ==> request.value["summary"] == Text(summary)
      ensures request.Some? && description != "" ==>
              request.value["description"] == Document(ParagraphDoc(description)) &&
              DescriptionText(Some(request.value["description"].doc)) == description
    {
      var fields: map<string, Field> := map[];
      if summary != "" {
        fields := fields["summary" := Text(summary)];
      }
      if description != "" {
        fields := fields["description" := Document(ParagraphDoc(description))];
        ParagraphDocRoundTrip(description);
      }
      if fields == map[] {
        assert "summary" !in fields && "description" !in fields;
        return None;
      }
      return Some(fields);
    }

    /**
     * Picks the id of the first transition leading to `statusName`, ignoring case,
     * which is the id the transition request sends. A rejected transition listing
     * fails with its status; with no match, or a falsy id, it fails listing every
     * target name. Either way nothing is sent.
     */
    method TransitionIssue(response: Response<seq<Transition>>, statusName: string) returns (r: Result<string, ClientError>)
      ensures Raises(response.status) ==> r == Failure(RemoteError(response.status))
      ensures !Raises(response.status) ==>
              var transitions := response.body;
              (r.Success? <==>
                 FirstMatch(transitions, statusName).Some? &&
                 transitions[FirstMatch(transitions, statusName).value].id != "") &&
              (r.Success? ==> r.value == transitions[FirstMatch(transitions, statusName).value].id) &&
              (r.Failure? ==> r.error == CannotTransition(statusName, TargetNames(transitions)))
    {
      if Raises(response.status) {
        return Failure(RemoteError(response.status));
      }
      var transitions := response.body;
      var transitionId: Option<string> := None;
      var i := 0;
      while i < |transitions|
        invariant 0 <= i <= |transitions|
        invariant transitionId.None?
        invariant forall k :: 0 <= k < i ==> !Matches(transitions[k], statusName)
      {
        var t := transitions[i];
        if Lower(t.toName) == Lower(statusName) {
          transitionId := Some(t.id);
          break;
        }
        i := i + 1;
      }
      if transitionId.None? || transitionId.value == "" {
        return Failure(CannotTransition(statusName, TargetNames(transitions)));
      }
      return Success(transitionId.value);
    }

    /** The project's board: the first one listed, if any; a rejected listing raises. */
    function GetBoardForProject(boards: Response<seq<Board>>): (r: Result<Option<Board>, ClientError>)
      ensures r.Failure? <==> Raises(boards.status)
      ensures r.Failure? ==> r.error == RemoteError(boards.status)
      ensures r.Success? ==> (r.value.None? <==> boards.body == [])
      ensures r.Success? && r.value.Some? ==> r.value.value == boards.body[0]
    {
      if Raises(boards.status) then Failure(RemoteError(boards.status))
      else if |boards.body| > 0 then Success(Some(boards.body[0]))
      else Success(None)
    }

    /** A board's active sprint: the first sprint listed in the active state, if any; a rejected listing raises. */
    function GetActiveSprint(activeSprints: Response<seq<Sprint>>): (r: Result<Option<Sprint>, ClientError>)
      ensures r.Failure? <==> Raises(activeSprints.status)
      ensures r.Failure? ==> r.error == RemoteError(activeSprints.status)
      ensures r.Success? ==> (r.value.None? <==> activeSprints.body == [])
      ensures r.Success? && r.value.Some? ==> r.value.value == activeSprints.body[0]
    {
      if Raises(activeSprints.status) then Failure(RemoteError(activeSprints.status))
      else if |activeSprints.body| > 0 then Success(Some(activeSprints.body[0]))
      else Success(None)
    }

    /**
     * The active sprint of the project's board with its issues. `activeSprintsOf(b)`
     * is the active-sprint listing of board `b`, `issuesOf(s)` the issue listing of
     * sprint `s`. No board, or no active sprint, is an absence (`Success(None)`);
     * a rejected listing on the way is an error.
     */
    function GetActiveSprintIssues(boards: Response<seq<Board>>, activeSprintsOf: int -> Response<seq<Sprint>>,
                                   issuesOf: int -> Response<seq<Issue>>): (r: Result<Option<SprintIssues>, ClientError>)
      ensures Raises(boards.status) ==> r == Failure(RemoteError(boards.status))
      ensures !Raises(boards.status) && boards.body == [] ==> r == Success(None)
      ensures !Raises(boards.status) && boards.body != [] ==>
              var sprints := activeSprintsOf(boards.body[0].id);
              (Raises(sprints.status) ==> r == Failure(RemoteError(sprints.status))) &&
              (!Raises(sprints.status) && sprints.body == [] ==> r == Success(None)) &&
              (!Raises(sprints.status) && sprints.body != [] ==>
                 var issues := issuesOf(sprints.body[0].id);
                 (Raises(issues.status) ==> r == Failure(RemoteError(issues.status))) &&
                 (!Raises(issues.status) ==> r == Success(Some(SprintIssues(sprints.body[0], issues.body)))))
    {
      match GetBoardForProject(boards)
      case Failure(e) => Failure(e)
      case Success(None) => Success(None)
      case Success(Some(board)) =>
        match GetActiveSprint(activeSprintsOf(board.id))
        case Failure(e) => Failure(e)
        case Success(None) => Success(None)
        case Success(Some(sprint)) =>
          var issues := issuesOf(sprint.id);
          if Raises(issues.status) then Failure(RemoteError(issues.status))
          else Success(Some(SprintIssues(sprint, issues.body)))
    }

    /** The `fields` an issue creation sends: project, summary and type always, the description when given. */
    method CreateIssue(summary: string, issueType: string, description: string) returns (fields: map<string, Field>)
      ensures fields.Keys == {"project", "summary", "issuetype"} + (if description != "" then {"description"} else {})
      ensures fields["project"] == ProjectRef(projectKey)
      ensures fields["summary"] == Text(summary)
      ensures fields["issuetype"] == IssueTypeRef(issueType)
      ensures description != "" ==>
              fields["description"] == Document(ParagraphDoc(description)) &&
              DescriptionText(Some(fields["description"].doc)) == description
    {
      fields := map["project" := ProjectRef(projectKey), "summary" := Text(summary),
                    "issuetype" := IssueTypeRef(issueType)];
      if description != "" {
        fields := fields["description" := Document(ParagraphDoc(description))];
        ParagraphDocRoundTrip(description);
      }
    }

    /**
     * The body of a sprint creation request. A falsy board id (0) means the
     * project's board, whose listing is then fetched: a rejected listing raises,
     * and creation fails when there is no board. A given id fetches nothing.
     */
    method CreateSprint(name: string, boardId: int, boards: Response<seq<Board>>) returns (r: Result<NewSprint, ClientError>)
      ensures boardId != 0 ==> r == Success(NewSprint(name, boardId))
      ensures boardId == 0 && Raises(boards.status) ==> r == Failure(RemoteError(boards.status))
      ensures boardId == 0 && !Raises(boards.status) ==>
              (r.Failure? <==> boards.body == []) &&
              (r.Failure? ==> r.error == NoBoard) &&
              (r.Success? ==> r.value == NewSprint(name, boards.body[0].id))
    {
      var id := boardId;
      if id == 0 {
        var board := GetBoardForProject(boards);
        if board.Failure? {
          return Failure(board.error);
        }
        if board.value.None? {
          return Failure(NoBoard);
        }
        id := board.value.value.id;
      }
      return Success(NewSprint(name, id));
    }
  }
}
