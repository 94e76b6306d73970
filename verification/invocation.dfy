/** Remote invocation: the closed parameters of each method, the working directory the connector puts in, and the
    request that goes to the app-server (`src/employee_invocation.rs`, `src/invoke.rs`, `src/history.rs`). */
module Invocations {
  import opened Json
  import opened Employees

  // ---------------------------------------------------------------- the method contracts of connector.json

  /** The properties of a method's input, and of its `params`; the branches of a `oneOf` are joined. */
  datatype Schema = Schema(properties: set<string>, params: set<string>)

  const LIST: set<string> :=
    {"archived", "cursor", "cwd", "limit", "modelProviders", "searchTerm", "sortDirection", "sortKey", "sourceKinds",
     "useStateDbOnly"}
  const PROJECTS: set<string> :=
    {"archived", "cursor", "existsOnly", "includeSaved", "includeThreadStats", "includeTrusted", "limit",
     "maxThreadPages", "searchTerm", "threadCursor", "threadPageLimit", "useStateDbOnly"}
  const SEARCH: set<string> :=
    {"archived", "cursor", "limit", "searchTerm", "sortDirection", "sortKey", "sourceKinds"}

  function Both(keys: set<string>): Schema {
    Schema(keys + {"params"}, keys)
  }

  function InputSchema(path: string): Option<Schema> {
    if path == "/invoke/startThread" then Some(Schema({"cwd", "model", "params"}, {"cwd", "model"}))
    else if path == "/invoke/resumeThread"
    then Some(Schema({"excludeTurns", "initialTurnsPage", "params", "threadId"}, {"cwd", "model"}))
    else if path == "/invoke/startTurn"
    then Some(Schema({"cwd", "input", "model", "params", "threadId"}, {"collaborationMode"}))
    else if path == "/invoke/steerTurn" then Some(Both({"input", "threadId", "turnId"}))
    else if path == "/invoke/interruptTurn" then Some(Both({"threadId", "turnId"}))
    else if path == "/invoke/prepareProject" then Some(Schema({"type", "directory"}, {}))
    else if path == "/invoke/listThreads" || path == "/invoke/listSessions" then Some(Both(LIST))
    else if path == "/invoke/listProjects" then Some(Both(PROJECTS))
    else if path == "/invoke/searchThreads" then Some(Both(SEARCH))
    else if path == "/invoke/readThread" then Some(Both({"includeTurns", "threadId"}))
    else if path == "/invoke/listThreadTurns"
    then Some(Both({"cursor", "itemsView", "limit", "sortDirection", "threadId"}))
    else if path == "/invoke/listApps" then Some(Both({"cursor", "forceRefetch", "limit", "threadId"}))
    else if path == "/invoke/setThreadReadState"
    then Some(Schema({"hasUnreadTurn", "observedUpdatedAt", "threadId"}, {}))
    else if path == "/invoke/recentEvents" then Some(Schema({"afterSequence", "limit"}, {}))
    else if path == "/invoke/pendingRequests" then Some(Schema({"threadId"}, {}))
    else if path == "/invoke/respondToRequest" then Some(Schema({"requestId", "result", "threadId", "turnId"}, {}))
    else if path == "/invoke/employeeProfile" || path == "/invoke/status" then Some(Schema({}, {}))
    else None
  }

  // ---------------------------------------------------------------- the collaboration mode

  datatype Mode = Mode(mode: string, model: string)

  predicate IsOptionalString(v: Value) {
    v.Null? || v.Str?
  }

  /** The model of closed settings, given as an object or as an array in declaration order. */
  function DecodeSettings(v: Value): Option<string> {
    match v
    case Obj(fields) =>
      if && fields.Keys <= {"model", "developer_instructions"} && "model" in fields && fields["model"].Str?
         && ("developer_instructions" in fields ==> IsOptionalString(fields["developer_instructions"]))
      then Some(fields["model"].s) else None
    case Arr(items) =>
      if |items| == 2 && items[0].Str? && IsOptionalString(items[1]) then Some(items[0].s) else None
    case _ => None
  }

  function DecodeMode(v: Value): Option<Mode> {
    match v
    case Obj(fields) =>
      if fields.Keys == {"mode", "settings"} && fields["mode"].Str? && DecodeSettings(fields["settings"]).Some?
      then Some(Mode(fields["mode"].s, DecodeSettings(fields["settings"]).value)) else None
    case Arr(items) =>
      if |items| == 2 && items[0].Str? && DecodeSettings(items[1]).Some?
      then Some(Mode(items[0].s, DecodeSettings(items[1]).value)) else None
    case _ => None
  }

  /** A collaboration mode must be the default one, and of the model the request names, if it names any. */
  predicate ModeFits(source: Fields, params: Fields) {
    "collaborationMode" in params ==>
      var mode := DecodeMode(params["collaborationMode"]);
      && mode.Some? && mode.value.mode == "default"
      && ("model" in source ==> source["model"] == Str(mode.value.model))
  }

  /** Settings of this model: closed, with instructions that are a text or null if they are there; as an array, both. */
  predicate IsSettings(v: Value, model: string) {
    match v
    case Obj(fields) =>
      && "model" in fields && fields["model"] == Str(model)
      && forall k | k in fields && k != "model" ::
           k == "developer_instructions" && (fields[k] == Null || fields[k].Str?)
    case Arr(items) => |items| == 2 && items[0] == Str(model) && (items[1] == Null || items[1].Str?)
    case _ => false
  }

  /** The default mode with settings of this model, and nothing else. */
  predicate IsDefaultMode(v: Value, model: string) {
    match v
    case Obj(fields) =>
      && "mode" in fields && fields["mode"] == Str("default") && "settings" in fields
      && IsSettings(fields["settings"], model) && forall k | k in fields :: k == "mode" || k == "settings"
    case Arr(items) => |items| == 2 && items[0] == Str("default") && IsSettings(items[1], model)
    case _ => false
  }

  lemma SettingsAre(v: Value, model: string)
    ensures DecodeSettings(v) == Some(model) <==> IsSettings(v, model)
  {
  }

  /** The collaboration modes that pass: none, or the default one with settings of the model asked for, if one is. */
  lemma ModePasses(source: Fields, params: Fields)
    ensures ModeFits(source, params) <==>
      ("collaborationMode" in params ==>
         exists model :: IsDefaultMode(params["collaborationMode"], model)
                         && ("model" in source ==> source["model"] == Str(model)))
  {
    if "collaborationMode" in params {
      var v := params["collaborationMode"];
      forall model ensures DecodeMode(v) == Some(Mode("default", model)) <==> IsDefaultMode(v, model) {
        DecodedMode(v, model);
      }
      hide IsDefaultMode, DecodeMode;
      if DecodeMode(v).Some? {
        assert DecodeMode(v) == Some(Mode(DecodeMode(v).value.mode, DecodeMode(v).value.model));
      }
    }
  }

  lemma DecodedMode(v: Value, model: string)
    ensures DecodeMode(v) == Some(Mode("default", model)) <==> IsDefaultMode(v, model)
  {
    match v
    case Obj(fields) =>
      if "settings" in fields {
        SettingsAre(fields["settings"], model);
      }
      assert "mode" in fields && "settings" in fields ==>
        (fields.Keys == {"mode", "settings"} <==> forall k | k in fields :: k == "mode" || k == "settings");
      hide DecodeSettings, IsSettings;
    case Arr(items) =>
      if |items| == 2 {
        SettingsAre(items[1], model);
      }
      hide DecodeSettings, IsSettings;
    case _ =>
  }

  // ---------------------------------------------------------------- parameters

  function ParamsOf(source: Fields): Fields {
    if "params" in source && source["params"].Obj? then source["params"].fields else map[]
  }

  /** Every working directory the caller names is the employee's. */
  predicate DirectoriesFit(source: Fields, params: Fields, directory: Option<string>) {
    && ("cwd" in source ==> source["cwd"].AsStr() == directory)
    && ("cwd" in params ==> params["cwd"].AsStr() == directory)
  }

  predicate IsProject(source: Fields, directory: Option<string>) {
    Obj(source).GetStr("type") == Some("LOCAL_DIRECTORY") && Obj(source).GetStr("directory") == directory
  }

  function DirectoryValue(directory: Option<string>): Value {
    if directory.Some? then Str(directory.value) else Null
  }

  /** The body a method is invoked with. */
  function Placed(path: string, source: Fields, directory: Option<string>): Fields {
    if path == "/invoke/startThread" || path == "/invoke/startTurn" then source["cwd" := DirectoryValue(directory)]
    else if path == "/invoke/resumeThread"
    then source["params" := Obj(ParamsOf(source)["cwd" := DirectoryValue(directory)])]
    else source
  }

  /** `parameters`: the body to invoke with, or the status of the refusal. */
  function Parameters(path: string, body: Value, e: Employee): Result<Fields, nat> {
    var schema := InputSchema(path);
    if schema.None? then Err(404)
    else if !body.Obj? || !(body.fields.Keys <= schema.value.properties) then Err(400)
    else if "params" in body.fields && !body.fields["params"].Obj? then Err(400)
    else if !(ParamsOf(body.fields).Keys <= schema.value.params) then Err(400)
    else if !DirectoriesFit(body.fields, ParamsOf(body.fields), e.workingDirectory) then Err(409)
    else if !ModeFits(body.fields, ParamsOf(body.fields)) then Err(400)
    else if path == "/invoke/prepareProject" && !IsProject(body.fields, e.workingDirectory) then Err(403)
    else Ok(Placed(path, body.fields, e.workingDirectory))
  }

  /** The loop over a caller's keys, which stops at the first that is not in the contract. */
  method AllAllowed(keys: set<string>, allowed: set<string>) returns (ok: bool)
    ensures ok <==> keys <= allowed
  {
    var left := keys;
    while left != {}
      invariant left <= keys && keys - left <= allowed
    {
      var key :| key in left;
      if key !in allowed {
        return false;
      }
      left := left - {key};
    }
    assert keys - left == keys;
    ok := true;
  }

  method CheckParameters(path: string, body: Value, e: Employee) returns (r: Result<Fields, nat>)
    ensures r == Parameters(path, body, e)
  {
    var schema := InputSchema(path);
    if schema.None? {
      return Err(404);
    }
    if !body.Obj? {
      return Err(400);
    }
    var source, params := body.fields, map[];
    var closed := AllAllowed(source.Keys, schema.value.properties);
    if !closed {
      return Err(400);
    }
    if "params" in source {
      if !source["params"].Obj? {
        return Err(400);
      }
      params := source["params"].fields;
    }
    closed := AllAllowed(params.Keys, schema.value.params);
    if !closed {
      return Err(400);
    }
    if !DirectoriesFit(source, params, e.workingDirectory) {
      return Err(409);
    }
    if !ModeFits(source, params) {
      return Err(400);
    }
    if path == "/invoke/prepareProject" && !IsProject(source, e.workingDirectory) {
      return Err(403);
    }
    var result := source;
    if path == "/invoke/startThread" || path == "/invoke/startTurn" {
      result := result["cwd" := DirectoryValue(e.workingDirectory)];
    }
    if path == "/invoke/resumeThread" {
      params := params["cwd" := DirectoryValue(e.workingDirectory)];
      result := result["params" := Obj(params)];
    }
    r := Ok(result);
  }

  // ---------------------------------------------------------------- the requests it becomes

  datatype Request = Request(name: string, params: Fields)

  function Named(body: Fields, keys: set<string>): Fields {
    map k | k in body && k in keys :: body[k]
  }

  /** `merge_params`: the body's own members over those of its `params`. */
  function Merged(body: Fields, keys: set<string>): Fields {
    ParamsOf(body) + Named(body, keys)
  }

  function NormalizeInput(input: Value): Value {
    if input.Str? then Arr([Obj(map["type" := Str("text"), "text" := input])]) else input
  }

  /** `configure_new_thread`: absent or null becomes legacy, and nothing but legacy is accepted. */
  function ConfigureNewThread(params: Fields): Result<Fields, nat> {
    if "historyMode" !in params || params["historyMode"].Null? then Ok(params["historyMode" := Str("legacy")])
    else if params["historyMode"] == Str("legacy") then Ok(params)
    else Err(400)
  }

  const RPC_PATHS: set<string> :=
    {"/invoke/startThread", "/invoke/resumeThread", "/invoke/startTurn", "/invoke/steerTurn", "/invoke/interruptTurn"}

  /** The arms of `handle_invoke` that start, continue, steer and interrupt turns. */
  function RequestOf(path: string, body: Fields): Result<Request, nat>
    requires path in RPC_PATHS
  {
    if path == "/invoke/startThread" then
      match ConfigureNewThread(ParamsOf(body))
      case Err(status) => Err(status)
      case Ok(params) => Ok(Request("thread/start", params + Named(body, {"model", "cwd"})))
    else if path == "/invoke/resumeThread" then
      match Obj(body).GetNonEmpty("threadId")
      case None => Err(400)
      case Some(thread) =>
        Ok(Request("thread/resume",
          ParamsOf(body)["threadId" := Str(thread)] + Named(body, {"excludeTurns", "initialTurnsPage"})))
    else if path == "/invoke/startTurn" then
      if Obj(body).GetNonEmpty("threadId").None? || "input" !in body then Err(400)
      else Ok(Request("turn/start",
        ParamsOf(body)["threadId" := Str(Obj(body).GetNonEmpty("threadId").value)]
                      ["input" := NormalizeInput(body["input"])]
        + Named(body, {"model", "cwd"})))
    else if path == "/invoke/steerTurn" then
      var params := Merged(body, {"threadId", "turnId"});
      if "input" !in body || "turnId" !in params then Err(400)
      else Ok(Request("turn/steer",
        (params - {"turnId"})["expectedTurnId" := params["turnId"]]["input" := NormalizeInput(body["input"])]))
    else Ok(Request("turn/interrupt", Merged(body, {"threadId", "turnId"})))
  }

  const READ_PATHS: set<string> :=
    {"/invoke/listThreads", "/invoke/listSessions", "/invoke/searchThreads", "/invoke/readThread",
     "/invoke/listThreadTurns", "/invoke/listApps", "/invoke/setThreadReadState"}

  const READ: set<string> := {"includeTurns", "threadId"}
  const TURNS: set<string> := {"cursor", "itemsView", "limit", "sortDirection", "threadId"}
  const APPS: set<string> := {"cursor", "forceRefetch", "limit", "threadId"}

  function ThreadOf(body: Fields): Option<string> {
    if Obj(body).GetNonEmpty("threadId").Some? then Obj(body).GetNonEmpty("threadId")
    else Obj(ParamsOf(body)).GetStr("threadId")
  }

  /** The body's own member before that of its `params`. */
  function Param(body: Fields, key: string): Option<Value> {
    if key in body then Some(body[key]) else Obj(ParamsOf(body)).Get(key)
  }

  /** The default sort of a listing, where the caller gives none. */
  function Sorted(params: Fields): Fields {
    map["sortKey" := Str("updated_at"), "sortDirection" := Str("desc")] + params
  }

  /** The arms that read: the request they begin with, if they need one. The later pages of a listing differ from it in
      cursor and limit only. */
  function ReadRequestOf(path: string, body: Fields): Result<Option<Request>, nat>
    requires path in READ_PATHS
  {
    if path == "/invoke/listThreads" || path == "/invoke/listSessions"
    then Ok(Some(Request("thread/list", Sorted(Merged(body, LIST)))))
    else if path == "/invoke/searchThreads" then
      if Obj(body).GetNonEmpty("searchTerm").None? && Obj(ParamsOf(body)).GetStr("searchTerm").None? then Err(400)
      else Ok(Some(Request("thread/search", Merged(body, SEARCH))))
    else if path == "/invoke/readThread" then
      if ThreadOf(body).None? then Err(400)
      else Ok(Some(Request("thread/read", Merged(body, READ)["threadId" := Str(ThreadOf(body).value)])))
    else if path == "/invoke/listThreadTurns" then
      if ThreadOf(body).None? then Ok(None)
      else Ok(Some(Request("thread/turns/list", Merged(body, TURNS)["threadId" := Str(ThreadOf(body).value)])))
    else if path == "/invoke/listApps" then Ok(Some(Request("app/list", Merged(body, APPS))))
    else
      match (Param(body, "threadId"), Param(body, "hasUnreadTurn"))
      case (Some(Str(thread)), Some(Bool(_))) =>
        if Param(body, "observedUpdatedAt").Some? then Ok(None)
        else Ok(Some(Request("thread/read", map["threadId" := Str(thread), "includeTurns" := Bool(false)])))
      case _ => Err(400)
  }

  /** The request to the app-server an accepted body leads to, if it leads to one. */
  function Requested(path: string, body: Fields): Result<Option<Request>, nat> {
    if path in READ_PATHS then ReadRequestOf(path, body)
    else if path !in RPC_PATHS then Ok(None)
    else match RequestOf(path, body)
    case Err(status) => Err(status)
    case Ok(request) => Ok(Some(request))
  }

  /** The request's member is the body's own, or else that of the body's `params`. */
  predicate Takes(sent: Fields, body: Fields, key: string) {
    Obj(sent).Get(key) == if key in body then Some(body[key]) else Obj(body).GetOrNull("params").Get(key)
  }

  /** The same, with a value for when there is neither. */
  predicate TakesOr(sent: Fields, body: Fields, key: string, otherwise: Value) {
    if key in body || Obj(body).GetOrNull("params").Get(key).Some? then Takes(sent, body, key)
    else Obj(sent).Get(key) == Some(otherwise)
  }

  /** The request's other members are those of the body's `params`. */
  ghost predicate TheRest(sent: Fields, body: Fields, named: set<string>) {
    forall k | k !in named :: Obj(sent).Get(k) == Obj(body).GetOrNull("params").Get(k)
  }

  /** An input that is a text is sent as the one text item, and any other as it is. */
  predicate IsInput(sent: Value, input: Value) {
    match input
    case Str(_) =>
      && sent.Arr? && |sent.items| == 1 && sent.items[0].Obj? && sent.items[0].fields.Keys == {"type", "text"}
      && sent.items[0].fields["type"] == Str("text") && sent.items[0].fields["text"] == input
    case _ => sent == input
  }

  /** What is sent for each method that starts, continues, steers or ends a turn, and when it is refused. */
  lemma StartSends(body: Fields)
    ensures match RequestOf("/invoke/startThread", body)
      case Ok(Request(name, sent)) =>
        && name == "thread/start" && Takes(sent, body, "model") && Takes(sent, body, "cwd")
        && Obj(sent).Get("historyMode") == Some(Str("legacy")) && TheRest(sent, body, {"model", "cwd", "historyMode"})
      case Err(status) => status == 400
    ensures RequestOf("/invoke/startThread", body).Err? <==>
      Obj(body).GetOrNull("params").GetOrNull("historyMode") !in {Null, Str("legacy")}
  {
  }

  lemma ResumeSends(body: Fields)
    ensures match RequestOf("/invoke/resumeThread", body)
      case Ok(Request(name, sent)) =>
        && name == "thread/resume" && Obj(sent).Get("threadId") == Obj(body).Get("threadId")
        && Takes(sent, body, "excludeTurns") && Takes(sent, body, "initialTurnsPage")
        && TheRest(sent, body, {"threadId", "excludeTurns", "initialTurnsPage"})
      case Err(status) => status == 400
    ensures RequestOf("/invoke/resumeThread", body).Ok? <==>
      exists thread :: thread != "" && Obj(body).Get("threadId") == Some(Str(thread))
  {
    if RequestOf("/invoke/resumeThread", body).Ok? {
      assert Obj(body).Get("threadId") == Some(Str(Obj(body).GetStr("threadId").value));
    }
  }

  lemma TurnSends(body: Fields)
    ensures match RequestOf("/invoke/startTurn", body)
      case Ok(Request(name, sent)) =>
        && name == "turn/start" && Obj(sent).Get("threadId") == Obj(body).Get("threadId")
        && "input" in body && "input" in sent && IsInput(sent["input"], body["input"])
        && Takes(sent, body, "model") && Takes(sent, body, "cwd")
        && TheRest(sent, body, {"threadId", "input", "model", "cwd"})
      case Err(status) => status == 400
    ensures RequestOf("/invoke/startTurn", body).Ok? <==>
      "input" in body && exists thread :: thread != "" && Obj(body).Get("threadId") == Some(Str(thread))
  {
    if RequestOf("/invoke/startTurn", body).Ok? {
      assert Obj(body).Get("threadId") == Some(Str(Obj(body).GetStr("threadId").value));
    }
  }

  lemma SteerSends(body: Fields)
    ensures match RequestOf("/invoke/steerTurn", body)
      case Ok(Request(name, sent)) =>
        && name == "turn/steer" && "input" in body && "input" in sent && IsInput(sent["input"], body["input"])
        && Takes(sent, body, "threadId") && Obj(sent).Get("turnId").None?
        && Obj(sent).Get("expectedTurnId")
             == (if "turnId" in body then Some(body["turnId"]) else Obj(body).GetOrNull("params").Get("turnId"))
        && TheRest(sent, body, {"input", "threadId", "turnId", "expectedTurnId"})
      case Err(status) => status == 400
    ensures RequestOf("/invoke/steerTurn", body).Ok? <==>
      "input" in body && ("turnId" in body || Obj(body).GetOrNull("params").Get("turnId").Some?)
  {
  }

  lemma InterruptSends(body: Fields)
    ensures match RequestOf("/invoke/interruptTurn", body)
      case Ok(Request(name, sent)) =>
        && name == "turn/interrupt" && Takes(sent, body, "threadId") && Takes(sent, body, "turnId")
        && TheRest(sent, body, {"threadId", "turnId"})
      case Err(_) => false
  {
  }

  /** What the listings and searches begin with. */
  lemma ListSends(path: string, body: Fields)
    requires path == "/invoke/listThreads" || path == "/invoke/listSessions"
    ensures match ReadRequestOf(path, body)
      case Ok(Some(Request(name, sent))) =>
        && name == "thread/list"
        && (forall k | k in {"archived", "cursor", "cwd", "limit", "modelProviders", "searchTerm", "sourceKinds",
                             "useStateDbOnly"} :: Takes(sent, body, k))
        && TakesOr(sent, body, "sortKey", Str("updated_at"))
        && TakesOr(sent, body, "sortDirection", Str("desc"))
      case _ => false
  {
    var merged := Merged(body, LIST);
    assert ReadRequestOf(path, body) == Ok(Some(Request("thread/list", Sorted(merged))));
    hide ReadRequestOf;
    MergedTakes(body, LIST);
    hide Merged, ParamsOf;
    SortedAdds(merged);
    hide Sorted;
  }

  lemma MergedTakes(body: Fields, keys: set<string>)
    ensures forall k | k in keys :: Takes(Merged(body, keys), body, k)
  {
  }

  lemma SortedAdds(params: Fields)
    ensures forall k | k in params || k !in {"sortKey", "sortDirection"} ::
      Obj(Sorted(params)).Get(k) == Obj(params).Get(k)
    ensures "sortKey" !in params ==> Obj(Sorted(params)).Get("sortKey") == Some(Str("updated_at"))
    ensures "sortDirection" !in params ==> Obj(Sorted(params)).Get("sortDirection") == Some(Str("desc"))
  {
  }

  lemma SearchSends(body: Fields)
    ensures match ReadRequestOf("/invoke/searchThreads", body)
      case Ok(Some(Request(name, sent))) =>
        && name == "thread/search"
        && forall k | k in {"archived", "cursor", "limit", "searchTerm", "sortDirection", "sortKey", "sourceKinds"} ::
             Takes(sent, body, k)
      case Ok(None) => false
      case Err(status) => status == 400
    ensures ReadRequestOf("/invoke/searchThreads", body).Ok? <==>
      || (exists term :: term != "" && Obj(body).Get("searchTerm") == Some(Str(term)))
      || (exists term :: Obj(body).GetOrNull("params").Get("searchTerm") == Some(Str(term)))
  {
    if Obj(body).GetNonEmpty("searchTerm").Some? {
      assert Obj(body).Get("searchTerm") == Some(Str(Obj(body).GetStr("searchTerm").value));
    } else if Obj(ParamsOf(body)).GetStr("searchTerm").Some? {
      assert Obj(body).GetOrNull("params").Get("searchTerm")
          == Some(Str(Obj(ParamsOf(body)).GetStr("searchTerm").value));
    }
  }

  /** The thread to read is the body's own `threadId`, or else that of its `params`. */
  lemma ReadSends(path: string, body: Fields)
    requires path == "/invoke/readThread" || path == "/invoke/listThreadTurns"
    ensures match ReadRequestOf(path, body)
      case Ok(Some(Request(name, sent))) =>
        && name == (if path == "/invoke/readThread" then "thread/read" else "thread/turns/list")
        && Obj(sent).GetStr("threadId").Some?
        && Obj(sent).Get("threadId")
             == (if Obj(body).GetStr("threadId").Some? && Obj(body).Get("threadId") != Some(Str(""))
                 then Obj(body).Get("threadId") else Obj(body).GetOrNull("params").Get("threadId"))
        && (forall k | k in {"cursor", "limit", "sortDirection", "itemsView"} && path == "/invoke/listThreadTurns" ::
              Takes(sent, body, k))
        && (path == "/invoke/readThread" ==> Takes(sent, body, "includeTurns"))
      case Ok(None) => path == "/invoke/listThreadTurns"
      case Err(status) => status == 400 && path == "/invoke/readThread"
  {
  }

  lemma AppsSend(body: Fields)
    ensures match ReadRequestOf("/invoke/listApps", body)
      case Ok(Some(Request(name, sent))) =>
        name == "app/list" && forall k | k in {"cursor", "limit", "threadId", "forceRefetch"} :: Takes(sent, body, k)
      case _ => false
  {
  }

  /** The parameters a remote caller's request can have. */
  function ClosedKeys(path: string): set<string> {
    if path == "/invoke/startThread" then {"cwd", "model", "historyMode"}
    else if path == "/invoke/resumeThread" then {"threadId", "excludeTurns", "initialTurnsPage", "cwd", "model"}
    else if path == "/invoke/startTurn" then {"collaborationMode", "threadId", "input", "model", "cwd"}
    else if path == "/invoke/steerTurn" then {"input", "threadId", "expectedTurnId"}
    else if path == "/invoke/interruptTurn" then {"threadId", "turnId"}
    else if path == "/invoke/listThreads" || path == "/invoke/listSessions" then LIST
    else if path == "/invoke/searchThreads" then SEARCH
    else if path == "/invoke/listThreadTurns" then TURNS
    else if path == "/invoke/listApps" then APPS
    else READ
  }

  const PLACED: set<string> := {"/invoke/startThread", "/invoke/resumeThread", "/invoke/startTurn"}

  /** The request of an accepted body has only the method's own parameters, names no directory but this, and names it
      where work is to run. */
  predicate Confines(path: string, params: Fields, directory: string) {
    && params.Keys <= ClosedKeys(path)
    && ("cwd" in params ==> params["cwd"] == Str(directory))
    && (path in PLACED ==> "cwd" in params)
    && (path == "/invoke/startThread" ==> "historyMode" in params && params["historyMode"] == Str("legacy"))
  }

  lemma ConfinedStart(body: Value, e: Employee, path: string)
    requires path == "/invoke/startThread" && e.workingDirectory.Some? && Parameters(path, body, e).Ok?
    ensures RequestOf(path, Parameters(path, body, e).value).Ok?
    ensures Confines(path, RequestOf(path, Parameters(path, body, e).value).value.params, e.workingDirectory.value)
  {
    hide ModeFits;
  }

  lemma ConfinedResume(body: Value, e: Employee, path: string)
    requires path == "/invoke/resumeThread" && e.workingDirectory.Some? && Parameters(path, body, e).Ok?
    requires RequestOf(path, Parameters(path, body, e).value).Ok?
    ensures Confines(path, RequestOf(path, Parameters(path, body, e).value).value.params, e.workingDirectory.value)
  {
    hide ModeFits;
  }

  lemma ConfinedTurn(body: Value, e: Employee, path: string)
    requires path == "/invoke/startTurn" && e.workingDirectory.Some? && Parameters(path, body, e).Ok?
    requires RequestOf(path, Parameters(path, body, e).value).Ok?
    ensures Confines(path, RequestOf(path, Parameters(path, body, e).value).value.params, e.workingDirectory.value)
  {
    hide ModeFits;
  }

  lemma ConfinedOther(body: Value, e: Employee, path: string)
    requires path in RPC_PATHS && path !in PLACED && e.workingDirectory.Some? && Parameters(path, body, e).Ok?
    requires RequestOf(path, Parameters(path, body, e).value).Ok?
    ensures Confines(path, RequestOf(path, Parameters(path, body, e).value).value.params, e.workingDirectory.value)
  {
    hide ModeFits;
  }

  lemma ConfinedTurns(path: string, body: Value, e: Employee)
    requires path in RPC_PATHS && e.workingDirectory.Some?
    requires Parameters(path, body, e).Ok? && RequestOf(path, Parameters(path, body, e).value).Ok?
    ensures Confines(path, RequestOf(path, Parameters(path, body, e).value).value.params, e.workingDirectory.value)
  {
    if path !in PLACED {
      ConfinedOther(body, e, path);
    } else if path == "/invoke/startThread" {
      ConfinedStart(body, e, path);
    } else if path == "/invoke/resumeThread" {
      ConfinedResume(body, e, path);
    } else {
      ConfinedTurn(body, e, path);
    }
    hide Parameters, RequestOf, Confines;
  }

  /** Merging an accepted body of a method whose properties are `keys`, in it and in its `params`. */
  lemma MergedStays(path: string, body: Fields, keys: set<string>, directory: string)
    requires Stays(path, body, directory) && InputSchema(path) == Some(Both(keys))
    ensures Merged(body, keys).Keys <= keys
    ensures "cwd" in Merged(body, keys) ==> Merged(body, keys)["cwd"] == Str(directory)
  {
    hide InputSchema, ParamsOf;
  }

  /** What a read arm adds to the merged members. */
  lemma ReadKeys(path: string, body: Fields)
    requires path in READ_PATHS && path != "/invoke/setThreadReadState"
    requires ReadRequestOf(path, body).Ok? && ReadRequestOf(path, body).value.Some?
    ensures InputSchema(path) == Some(Both(ClosedKeys(path)))
    ensures var params, merged := ReadRequestOf(path, body).value.value.params, Merged(body, ClosedKeys(path));
      && params.Keys <= merged.Keys + ClosedKeys(path)
      && ("cwd" in params ==> "cwd" in merged && params["cwd"] == merged["cwd"])
  {
    hide Merged, ThreadOf;
    var merged := Merged(body, ClosedKeys(path));
    if path == "/invoke/listThreads" || path == "/invoke/listSessions" {
      assert ReadRequestOf(path, body).value.value.params == Sorted(merged);
    } else if path == "/invoke/searchThreads" || path == "/invoke/listApps" {
      assert ReadRequestOf(path, body).value.value.params == merged;
    } else {
      assert ReadRequestOf(path, body).value.value.params == merged["threadId" := Str(ThreadOf(body).value)];
    }
  }

  /** Setting a read state reads the thread it names, and nothing more. */
  lemma ReadStateKeys(path: string, body: Fields)
    requires path == "/invoke/setThreadReadState"
    requires ReadRequestOf(path, body).Ok? && ReadRequestOf(path, body).value.Some?
    ensures var params := ReadRequestOf(path, body).value.value.params;
      params.Keys <= ClosedKeys(path) && "cwd" !in params
  {
    hide Merged, ThreadOf;
  }

  lemma ConfinedReads(path: string, body: Fields, directory: string)
    requires path in READ_PATHS && Stays(path, body, directory)
    requires ReadRequestOf(path, body).Ok? && ReadRequestOf(path, body).value.Some?
    ensures Confines(path, ReadRequestOf(path, body).value.value.params, directory)
  {
    hide InputSchema, ReadRequestOf, Stays, ClosedKeys, Merged;
    if path == "/invoke/setThreadReadState" {
      ReadStateKeys(path, body);
    } else {
      ReadKeys(path, body);
      MergedStays(path, body, ClosedKeys(path), directory);
    }
  }

  /** A method that starts, continues, steers or interrupts a turn always leads to a request, or is refused. */
  lemma TurnsAlwaysRequest(path: string, body: Fields)
    ensures path in RPC_PATHS ==> Requested(path, body) != Ok(None)
  {
    hide RequestOf;
  }

  /** Whatever a remote caller sends, the request it leads to has no parameter outside the method's closed set and names
      no directory but the employee's own; what runs, runs there, and threads start in the legacy format. */
  lemma Confined(path: string, body: Value, e: Employee)
    requires e.workingDirectory.Some? && Parameters(path, body, e).Ok?
    requires var r := Requested(path, Parameters(path, body, e).value); r.Ok? && r.value.Some?
    ensures var request := Requested(path, Parameters(path, body, e).value).value.value;
      Confines(path, request.params, e.workingDirectory.value)
  {
    hide Parameters, RequestOf, ReadRequestOf, Confines, Stays;
    if path in READ_PATHS {
      StaysInside(path, body, e);
      ConfinedReads(path, Parameters(path, body, e).value, e.workingDirectory.value);
    } else {
      ConfinedTurns(path, body, e);
    }
  }

  /** A body handed on has only the method's own properties, in it and in its `params`, and names no directory but
      this. */
  predicate Stays(path: string, body: Fields, directory: string) {
    && InputSchema(path).Some?
    && body.Keys <= InputSchema(path).value.properties
    && ParamsOf(body).Keys <= InputSchema(path).value.params
    && ("cwd" in body ==> body["cwd"] == Str(directory))
    && ("cwd" in ParamsOf(body) ==> ParamsOf(body)["cwd"] == Str(directory))
  }

  lemma StaysInside(path: string, body: Value, e: Employee)
    requires e.workingDirectory.Some? && Parameters(path, body, e).Ok? && path !in RPC_PATHS
    ensures Stays(path, Parameters(path, body, e).value, e.workingDirectory.value)
  {
    hide ModeFits, InputSchema;
  }

  /** A confined request sets no policy, sandbox or configuration. */
  lemma SettingsStayLocal(path: string, params: Fields, directory: string, k: string)
    requires Confines(path, params, directory)
    requires k in {"approvalPolicy", "config", "permissions", "sandbox", "sandboxPolicy"}
    ensures k !in params
  {
    if path in RPC_PATHS {
      NotOfTurns(path, k);
    } else {
      NotOfReads(path, k);
    }
    hide ClosedKeys;
  }

  lemma NotOfTurns(path: string, k: string)
    requires path in RPC_PATHS && k in {"approvalPolicy", "config", "permissions", "sandbox", "sandboxPolicy"}
    ensures k !in ClosedKeys(path)
  {
  }

  lemma NotOfReads(path: string, k: string)
    requires path !in RPC_PATHS && k in {"approvalPolicy", "config", "permissions", "sandbox", "sandboxPolicy"}
    ensures k !in ClosedKeys(path)
  {
  }

  /** The members a body may have, and those its `params` may have, for the methods of turns. */
  lemma TurnKeysAre(path: string)
    requires path in RPC_PATHS
    ensures InputSchema(path).Some?
    ensures InputSchema(path).value.properties ==
      if path == "/invoke/startThread" then {"cwd", "model", "params"}
      else if path == "/invoke/resumeThread" then {"excludeTurns", "initialTurnsPage", "params", "threadId"}
      else if path == "/invoke/startTurn" then {"cwd", "input", "model", "params", "threadId"}
      else if path == "/invoke/steerTurn" then {"input", "params", "threadId", "turnId"}
      else {"params", "threadId", "turnId"}
    ensures InputSchema(path).value.params ==
      if path == "/invoke/startThread" || path == "/invoke/resumeThread" then {"cwd", "model"}
      else if path == "/invoke/startTurn" then {"collaborationMode"}
      else if path == "/invoke/steerTurn" then {"input", "threadId", "turnId"}
      else {"threadId", "turnId"}
  {
  }

  /** A body is accepted exactly when the method is known, its members and those of `params` are the method's own, each
      directory it names is the employee's, its mode passes, and a project it prepares is the employee's directory; an
      unknown method is refused with 404, another directory with 409, another project with 403, the rest with 400. */
  lemma AcceptedWhen(path: string, body: Value, e: Employee)
    requires e.workingDirectory.Some?
    ensures var own, directory := InputSchema(path), Some(Str(e.workingDirectory.value));
      var params := body.GetOrNull("params");
      var closed := && own.Some? && body.Obj? && body.fields.Keys <= own.value.properties
                    && ("params" in body.fields ==> params.Obj? && params.fields.Keys <= own.value.params);
      var placed := && (body.Get("cwd").Some? ==> body.Get("cwd") == directory)
                    && (params.Get("cwd").Some? ==> params.Get("cwd") == directory);
      var project := path == "/invoke/prepareProject" ==>
                       body.Get("type") == Some(Str("LOCAL_DIRECTORY")) && body.Get("directory") == directory;
      && (Parameters(path, body, e) == Err(404) <==> own.None?)
      && (Parameters(path, body, e) == Err(409) <==> closed && !placed)
      && (Parameters(path, body, e) == Err(403) <==>
            closed && placed && ModeFits(body.fields, ParamsOf(body.fields)) && !project)
      && (Parameters(path, body, e) == Err(400) <==>
            own.Some? && (!closed || (placed && !ModeFits(body.fields, ParamsOf(body.fields)))))
      && (Parameters(path, body, e).Ok? <==>
            closed && placed && ModeFits(body.fields, ParamsOf(body.fields)) && project)
  {
    hide InputSchema, ModeFits, Placed;
  }

  /** A remote caller cannot make `configure_new_thread` refuse. */
  lemma StartIsNeverRefused(body: Value, e: Employee)
    requires Parameters("/invoke/startThread", body, e).Ok?
    ensures RequestOf("/invoke/startThread", Parameters("/invoke/startThread", body, e).value).Ok?
  {
    hide ModeFits;
  }

  /** What the platform configured is passed on as it is: every accepted member but the working directory. */
  lemma Preserved(path: string, body: Value, e: Employee)
    requires Parameters(path, body, e).Ok?
    ensures body.Obj?
    ensures var placed := Parameters(path, body, e).value;
      && placed.Keys <= body.fields.Keys + {"cwd", "params"}
      && (forall k | k in body.fields && k != "cwd" && k != "params" :: k in placed && placed[k] == body.fields[k])
      && (forall k | k in ParamsOf(body.fields) && k != "cwd" ::
            k in ParamsOf(placed) && ParamsOf(placed)[k] == ParamsOf(body.fields)[k])
      && ("cwd" in body.fields ==> placed["cwd"] == body.fields["cwd"] || e.workingDirectory.None?)
  {
    hide ModeFits, InputSchema;
  }
}
