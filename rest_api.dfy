/**
 * The REST API handler of the command-and-control server: the single
 * `/api/rest` endpoint that routes a JSON body by its HTTP verb and its
 * `index` field to one operation of the REST service, or to the generic
 * permission-scoped listing; the directory an upload is saved to; and the
 * browser check shown on the landing page.
 */
module RestApi {
  import opened Wrappers
  import PosixPath

  // ---------------------------------------------------------------------
  // Request bodies
  // ---------------------------------------------------------------------

  /** A permission tag of the caller (red, blue, app, hidden). */
  type Permission = string

  /**
   * A value held in a request body or handed to the REST service. JSON
   * numbers are taken as integers; `Scope` is the tuple of permission
   * tags the handler adds itself and never comes from JSON.
   */
  datatype Value =
    | Null
    | Bool(b: bool)
    | Number(n: int)
    | Text(s: string)
    | Array(items: seq<Value>)
    | Object(members: map<string, Value>)
    | Scope(tags: seq<Permission>)

  type Fields = map<string, Value>

  /** Python can use the value as a dictionary key: lists and dicts cannot. */
  predicate Hashable(v: Value)
  {
    !v.Array? && !v.Object?
  }

  /** `dict(access=tuple(permissions))`, built once per request. */
  function AccessDict(permissions: seq<Permission>): Fields
  {
    map["access" := Scope(permissions)]
  }

  /** The request body as a mutable dictionary. */
  class Dict {
    var entries: Fields

    constructor (m: Fields)
      ensures entries == m
    {
      entries := m;
    }

    /**
     * `d.pop(key)`: the value under `key`, now removed; `None` stands for
     * the `KeyError` raised when there is no such key, which leaves the
     * dictionary as it was.
     */
    method Pop(key: string) returns (v: Option<Value>)
      modifies this
      ensures key in old(entries) ==> v == Some(old(entries)[key])
      ensures key !in old(entries) ==> v == None
      ensures entries == old(entries) - {key}
    {
      if key in entries {
        v := Some(entries[key]);
        entries := entries - {key};
      } else {
        v := None;
      }
    }
  }

  // ---------------------------------------------------------------------
  // The routing table
  // ---------------------------------------------------------------------

  /** The REST service operations reachable from an explicit route. */
  datatype Op =
    | DeleteAgent | DeleteOperation | DeleteAbility | DeleteAdversary
    | PersistAdversary | PersistAbility | PersistSource | UpdatePlanner
    | UpdateAgentData | UpdateChainData | CreateOperation | CreateSchedule
    | ApplyPotentialLink
    | DisplayOperationReport | DisplayResult | DownloadContactReport
    | UpdateConfig | GetPotentialLinks | UpdateOperation | TaskAgentWithAbility

  /** How a route hands the remaining body to its operation. */
  datatype Args =
    | Positional(data: Fields)                      // op(d)
    | AccessFirst(access: Fields, data: Fields)     // op(access, d)
    | Keywords(data: Fields)                        // op(**d)
    | LoadedLink(data: Fields)                      // op(Link.load(d))

  /** A call into the REST service: an explicit operation, or the generic listing. */
  datatype Call =
    | Invoke(op: Op, args: Args)
    | DisplayObjects(index: Value, search: Fields)

  /** The body fields a call hands to the service. */
  function Payload(c: Call): Fields
  {
    match c
    case Invoke(_, args) => args.data
    case DisplayObjects(_, search) => search
  }

  /** The DELETE routes. */
  function DeleteRoutes(): (t: map<string, Op>)
    ensures t.Keys == {"agents", "operations", "abilities", "adversaries"}
  {
    map[
      "agents" := DeleteAgent,
      "operations" := DeleteOperation,
      "abilities" := DeleteAbility,
      "adversaries" := DeleteAdversary]
  }

  /** The PUT routes. */
  function PutRoutes(): (t: map<string, Op>)
    ensures t.Keys == {"adversaries", "abilities", "sources", "planners", "agents",
                       "chain", "operations", "schedule", "link"}
  {
    map[
      "adversaries" := PersistAdversary,
      "abilities" := PersistAbility,
      "sources" := PersistSource,
      "planners" := UpdatePlanner,
      "agents" := UpdateAgentData,
      "chain" := UpdateChainData,
      "operations" := CreateOperation,
      "schedule" := CreateSchedule,
      "link" := ApplyPotentialLink]
  }

  /** The POST routes. */
  function PostRoutes(): (t: map<string, Op>)
    ensures t.Keys == {"operation_report", "result", "contact", "configuration",
                       "link", "operation", "task"}
  {
    map[
      "operation_report" := DisplayOperationReport,
      "result" := DisplayResult,
      "contact" := DownloadContactReport,
      "configuration" := UpdateConfig,
      "link" := GetPotentialLinks,
      "operation" := UpdateOperation,
      "task" := TaskAgentWithAbility]
  }

  /** The table, keyed by HTTP verb and then by the body's `index`; there is no GET entry. */
  function Routes(): (t: map<string, map<string, Op>>)
    ensures t.Keys == {"DELETE", "PUT", "POST"}
    ensures t["DELETE"] == DeleteRoutes() && t["PUT"] == PutRoutes() && t["POST"] == PostRoutes()
  {
    map["DELETE" := DeleteRoutes(), "PUT" := PutRoutes(), "POST" := PostRoutes()]
  }

  /** The one route each operation is registered under. */
  function RouteOf(op: Op): (key: (string, string))
    ensures key.0 in Routes() && key.1 in Routes()[key.0] && Routes()[key.0][key.1] == op
  {
    match op
    case DeleteAgent => ("DELETE", "agents")
    case DeleteOperation => ("DELETE", "operations")
    case DeleteAbility => ("DELETE", "abilities")
    case DeleteAdversary => ("DELETE", "adversaries")
    case PersistAdversary => ("PUT", "adversaries")
    case PersistAbility => ("PUT", "abilities")
    case PersistSource => ("PUT", "sources")
    case UpdatePlanner => ("PUT", "planners")
    case UpdateAgentData => ("PUT", "agents")
    case UpdateChainData => ("PUT", "chain")
    case CreateOperation => ("PUT", "operations")
    case CreateSchedule => ("PUT", "schedule")
    case ApplyPotentialLink => ("PUT", "link")
    case DisplayOperationReport => ("POST", "operation_report")
    case DisplayResult => ("POST", "result")
    case DownloadContactReport => ("POST", "contact")
    case UpdateConfig => ("POST", "configuration")
    case GetPotentialLinks => ("POST", "link")
    case UpdateOperation => ("POST", "operation")
    case TaskAgentWithAbility => ("POST", "task")
  }

  /** No operation sits under two routes: `RouteOf` inverts the table. */
  lemma RouteOfInvertsRoutes(verb: string, index: string)
    requires verb in Routes() && index in Routes()[verb]
    ensures RouteOf(Routes()[verb][index]) == (verb, index)
  {
    if verb == "DELETE" {
      assert index in DeleteRoutes().Keys;
    } else if verb == "PUT" {
      assert index in PutRoutes().Keys;
    } else {
      assert index in PostRoutes().Keys;
    }
  }

  /** The arguments an operation's lambda builds from the remaining body. */
  function Bind(op: Op, data: Fields, access: Fields): (a: Args)
    ensures a.data == data
    ensures a.AccessFirst? <==> op in {CreateOperation, CreateSchedule}
    ensures a.AccessFirst? ==> a.access == access
    ensures a.Keywords? <==> op in {GetPotentialLinks, UpdateOperation, TaskAgentWithAbility}
    ensures a.LoadedLink? <==> op == ApplyPotentialLink
  {
    match op
    case CreateOperation | CreateSchedule => AccessFirst(access, data)
    case GetPotentialLinks | UpdateOperation | TaskAgentWithAbility => Keywords(data)
    case ApplyPotentialLink => LoadedLink(data)
    case _ => Positional(data)
  }

  // ---------------------------------------------------------------------
  // Dispatch
  // ---------------------------------------------------------------------

  /**
   * An incoming request: its verb, its body (`None` when `request.json()`
   * or `dict(...)` fails), the caller's permissions, and whether the
   * authorization decorator admitted it.
   */
  datatype Request = Request(verb: string, body: Option<Fields>, permissions: seq<Permission>,
                             authorized: bool)

  /** Where dispatch raised before any service call. */
  datatype Raised = BodyNotADict | MissingIndex | NoRouteForVerb | UnhashableIndex

  datatype Decision = Dispatch(call: Call) | Raise(reason: Raised)

  /** What a service call does, as far as the handler can tell. */
  datatype Effect =
    | Returns(result: Value)
    | RaisesValidation(messages: Value)   // marshmallow.ValidationError
    | RaisesOther                         // any other `Exception`
    | Escapes                             // a `BaseException` outside `Exception`, e.g. a cancellation

  datatype Response =
    | JsonResponse(body: Value)
    | BadRequest(messages: Value)         // HTTP 400, body json.dumps(messages)
    | Swallowed                           // logged, the handler returns nothing
    | Propagated                          // not caught: the exception leaves the handler

  /** The service calls a request made, in order, and how it ended. */
  datatype Outcome = Outcome(calls: seq<Call>, response: Response)

  /** The routing decision of the handler, up to the point where it calls the service. */
  function Decide(verb: string, body: Option<Fields>, permissions: seq<Permission>): (d: Decision)
    ensures d.Raise? <==> || body.None? || "index" !in body.value || verb !in Routes()
                          || !Hashable(body.value["index"])
    ensures d.Dispatch? ==> "index" !in Payload(d.call)
    ensures d.Dispatch? && d.call.DisplayObjects? ==>
              "access" in d.call.search && d.call.search["access"] == Scope(permissions)
    ensures d.Dispatch? && d.call.Invoke? ==> d.call.args.data == body.value - {"index"}
  {
    match body
    case None => Raise(BodyNotADict)
    case Some(fields) =>
      if "index" !in fields then Raise(MissingIndex)
      else
        var index := fields["index"];
        var data := fields - {"index"};
        var access := AccessDict(permissions);
        if verb !in Routes() then Raise(NoRouteForVerb)
        else if !Hashable(index) then Raise(UnhashableIndex)
        else if index.Text? && index.s in Routes()[verb] then
          var op := Routes()[verb][index.s];
          Dispatch(Invoke(op, Bind(op, data, access)))
        else
          Dispatch(DisplayObjects(index, data + access))
  }

  /** The two `except` clauses. */
  function Respond(e: Effect): (r: Response)
    ensures r.BadRequest? <==> e.RaisesValidation?
    ensures r.BadRequest? ==> r.messages == e.messages
    ensures r.JsonResponse? <==> e.Returns?
    ensures r.JsonResponse? ==> r.body == e.result
    ensures r.Swallowed? <==> e.RaisesOther?
    ensures r.Propagated? <==> e.Escapes?
  {
    match e
    case Returns(v) => JsonResponse(v)
    case RaisesValidation(m) => BadRequest(m)
    case RaisesOther => Swallowed
    case Escapes => Propagated
  }

  /**
   * `rest_core` on a request, with the REST service given as `svc`. At
   * most one service call is made, and every raise before it ends in
   * silence.
   */
  function RestCoreSpec(req: Request, svc: Call -> Effect): (o: Outcome)
    ensures |o.calls| <= 1
    ensures o.calls == [] ==> o.response == Swallowed
    ensures o.calls != [] ==> o.response == Respond(svc(o.calls[0]))
  {
    match Decide(req.verb, req.body, req.permissions)
    case Raise(_) => Outcome([], Swallowed)
    case Dispatch(c) => Outcome([c], Respond(svc(c)))
  }

  /** The handler as written: the body is copied into a dictionary and `index` popped from it. */
  method RestCore(req: Request, svc: Call -> Effect) returns (o: Outcome)
    requires req.authorized
    ensures o == RestCoreSpec(req, svc)
  {
    var access := AccessDict(req.permissions);
    if req.body.None? {
      return Outcome([], Swallowed);
    }
    var data := new Dict(req.body.value);
    var index := data.Pop("index");
    if index.None? {
      return Outcome([], Swallowed);
    }
    var options := Routes();
    if req.verb !in options {
      return Outcome([], Swallowed);
    }
    if !Hashable(index.value) {
      return Outcome([], Swallowed);
    }
    var call: Call;
    if index.value.Text? && index.value.s in options[req.verb] {
      var op := options[req.verb][index.value.s];
      call := Invoke(op, Bind(op, data.entries, access));
    } else {
      call := DisplayObjects(index.value, data.entries + access);
    }
    o := Outcome([call], Respond(svc(call)));
  }

  // ---------------------------------------------------------------------
  // Properties of dispatch
  // ---------------------------------------------------------------------

  /** A registered (verb, index) pair makes exactly one call: its own operation. */
  lemma RegisteredRouteCallsItsOperation(req: Request, svc: Call -> Effect)
    requires req.body.Some? && "index" in req.body.value
    requires req.body.value["index"].Text?
    requires req.verb in Routes() && req.body.value["index"].s in Routes()[req.verb]
    ensures var op := Routes()[req.verb][req.body.value["index"].s];
            RestCoreSpec(req, svc).calls
            == [Invoke(op, Bind(op, req.body.value - {"index"}, AccessDict(req.permissions)))]
    ensures forall c :: c in RestCoreSpec(req, svc).calls ==> !c.DisplayObjects?
  {
  }

  /**
   * An index the verb's table does not hold goes to `display_objects`,
   * whose search is the body without `index`, with `access` set to the
   * caller's permission tuple.
   */
  lemma UnregisteredIndexFallsBack(req: Request, svc: Call -> Effect)
    requires req.body.Some? && "index" in req.body.value
    requires req.verb in Routes() && Hashable(req.body.value["index"])
    requires !(req.body.value["index"].Text? && req.body.value["index"].s in Routes()[req.verb])
    ensures var o := RestCoreSpec(req, svc);
            && |o.calls| == 1 && o.calls[0].DisplayObjects?
            && o.calls[0].index == req.body.value["index"]
            && o.calls[0].search.Keys == req.body.value.Keys - {"index"} + {"access"}
            && o.calls[0].search["access"] == Scope(req.permissions)
            && (forall k :: k in req.body.value && k != "index" && k != "access" ==>
                  o.calls[0].search[k] == req.body.value[k])
  {
  }

  /**
   * Whatever `access` the body claims, a request that falls back searches
   * with the caller's own permission tuple: forging the field changes
   * nothing.
   */
  lemma BodyCannotOverrideAccess(req: Request, claimed: Value, svc: Call -> Effect)
    requires req.body.Some? && "index" in req.body.value
    requires req.verb in Routes() && Hashable(req.body.value["index"])
    requires !(req.body.value["index"].Text? && req.body.value["index"].s in Routes()[req.verb])
    ensures RestCoreSpec(req.(body := Some(req.body.value["access" := claimed])), svc) == RestCoreSpec(req, svc)
  {
    var fields := req.body.value;
    var fields' := fields["access" := claimed];
    var access := AccessDict(req.permissions);
    assert fields'["index"] == fields["index"];
    assert (fields' - {"index"}) + access == (fields - {"index"}) + access;
  }

  /** The payload handed to the service never holds `index`; every other body field but `access` passes through. */
  lemma PayloadOmitsIndex(req: Request, svc: Call -> Effect)
    ensures forall c :: c in RestCoreSpec(req, svc).calls ==>
              && req.body.Some?
              && "index" !in Payload(c)
              && (forall k :: k in req.body.value && k != "index" && k != "access" ==>
                    k in Payload(c) && Payload(c)[k] == req.body.value[k])
  {
  }

  /** A verb with no table (GET among them) raises at `options[request.method]`: nothing is called. */
  lemma UnroutedVerbIsSwallowed(req: Request, svc: Call -> Effect)
    requires req.verb !in {"DELETE", "PUT", "POST"}
    ensures RestCoreSpec(req, svc) == Outcome([], Swallowed)
  {
  }

  /** A list or object `index` raises a `TypeError` at `index not in ...`: nothing is called. */
  lemma UnhashableIndexIsSwallowed(req: Request, svc: Call -> Effect)
    requires req.body.Some? && "index" in req.body.value && !Hashable(req.body.value["index"])
    ensures RestCoreSpec(req, svc) == Outcome([], Swallowed)
  {
  }

  /** A body without `index` raises at `data.pop('index')`: nothing is called. */
  lemma MissingIndexIsSwallowed(req: Request, svc: Call -> Effect)
    requires req.body.None? || "index" !in req.body.value
    ensures RestCoreSpec(req, svc) == Outcome([], Swallowed)
  {
  }

  /** Only a validation error from the service yields HTTP 400, carrying its messages. */
  lemma OnlyValidationErrorsAreReported(req: Request, svc: Call -> Effect, messages: Value)
    ensures RestCoreSpec(req, svc).response == BadRequest(messages)
            <==> exists c :: RestCoreSpec(req, svc).calls == [c] && svc(c) == RaisesValidation(messages)
  {
  }

  // ---------------------------------------------------------------------
  // Upload directory
  // ---------------------------------------------------------------------

  const PayloadsDirectory: string := "data/payloads/"

  datatype SaveTarget =
    | Payloads(dir: string)                // save straight into the payloads directory
    | ExfilSubdirectory(name: string)      // create this exfiltration sub-directory and save there

  /** `normpath('/' + id).lstrip('/')`. */
  function ExfilDirName(id: string): string
  {
    PosixPath.LStripSlashes(PosixPath.NormPath("/" + id))
  }

  /** A relative directory name that cannot climb out of, or restate, its parent. */
  predicate SafeSubdirectory(name: string)
  {
    && (name == "" || name[0] != '/')
    && (name != "" ==> forall seg :: seg in PosixPath.Split(name) ==> seg != "" && seg != "." && seg != "..")
  }

  /** The exfiltration directory name is the id's components resolved at the root, joined. */
  lemma ExfilDirNameResolves(id: string)
    ensures ExfilDirName(id) == PosixPath.Join(PosixPath.ResolveFrom([], PosixPath.Split(id), true))
  {
    var p := "/" + id;
    PosixPath.SplitAfter("", id);
    assert "" + "/" + id == p;
    var comps := PosixPath.Split(p);
    assert comps[0] == "" && comps[1..] == PosixPath.Split(id);
    var stack := PosixPath.ResolveFrom([], PosixPath.Split(id), true);
    var n := PosixPath.InitialSlashes(p);
    assert PosixPath.ResolveFrom([], comps, n > 0) == stack;
    PosixPath.ResolveKeepsClean([], PosixPath.Split(id), true);
    if stack != [] {
      PosixPath.JoinCleanHead(stack, true);
    }
    PosixPath.LStripSlashesAfter(n, PosixPath.Join(stack));
  }

  /** The exfiltration directory name never starts with `/` and has no empty, `.` or `..` segment. */
  lemma ExfilDirNameIsSafe(id: string)
    ensures SafeSubdirectory(ExfilDirName(id))
  {
    ExfilDirNameResolves(id);
    var stack := PosixPath.ResolveFrom([], PosixPath.Split(id), true);
    PosixPath.ResolveKeepsClean([], PosixPath.Split(id), true);
    if stack != [] {
      PosixPath.JoinCleanHead(stack, true);
      PosixPath.SplitJoin(stack);
    }
  }

  /**
   * The name is empty exactly when the id's components resolve to nothing
   * at the root (ids such as "", "/" and ".."); the empty name is what is
   * then handed to `create_exfil_sub_directory`.
   */
  lemma ExfilDirNameEmpty(id: string)
    ensures ExfilDirName(id) == "" <==> PosixPath.ResolveFrom([], PosixPath.Split(id), true) == []
  {
    ExfilDirNameResolves(id);
    var stack := PosixPath.ResolveFrom([], PosixPath.Split(id), true);
    PosixPath.ResolveKeepsClean([], PosixPath.Split(id), true);
    if stack != [] {
      PosixPath.JoinCleanHead(stack, true);
    }
  }

  /** The empty id and `..` both give the empty name. */
  lemma ExfilDirNameEmptyExamples()
    ensures ExfilDirName("") == "" && ExfilDirName("..") == ""
  {
    ExfilDirNameEmpty("");
    assert PosixPath.Split("") == [""];
    assert PosixPath.ResolveFrom([], [""], true) == [];
    ExfilDirNameEmpty("..");
    PosixPath.SplitNoSlash("..");
    assert PosixPath.ResolveFrom([], [".."], true) == [];
  }

  /**
   * `upload_file`'s choice of directory: the payloads directory when the
   * `Directory` header is non-empty, otherwise a sub-directory named after
   * `X-Request-ID` (or after `generatedId`, the fresh UUID, when that
   * header is absent).
   */
  function UploadTarget(directory: Option<string>, requestId: Option<string>, generatedId: string): (t: SaveTarget)
    ensures t.Payloads? <==> directory.Some? && directory.value != ""
    ensures t.Payloads? ==> t.dir == PayloadsDirectory
    ensures t.ExfilSubdirectory? ==> SafeSubdirectory(t.name)
  {
    if directory.Some? && directory.value != "" then Payloads(PayloadsDirectory)
    else
      var id := requestId.GetOr(generatedId);
      ExfilDirNameIsSafe(id);
      ExfilSubdirectory(ExfilDirName(id))
  }

  /** Only whether `Directory` is non-empty matters, never its value; a given request id wins over the UUID. */
  lemma UploadTargetInputs(d1: string, d2: string, id1: Option<string>, id2: Option<string>,
                           requestId: string, g1: string, g2: string)
    ensures d1 != "" && d2 != "" ==> UploadTarget(Some(d1), id1, g1) == UploadTarget(Some(d2), id2, g2)
    ensures UploadTarget(Some(""), id1, g1) == UploadTarget(None, id1, g1)
    ensures UploadTarget(None, Some(requestId), g1) == UploadTarget(None, Some(requestId), g2)
                                                    == ExfilSubdirectory(ExfilDirName(requestId))
    ensures UploadTarget(None, None, g1) == ExfilSubdirectory(ExfilDirName(g1))
  {
  }

  // ---------------------------------------------------------------------
  // Browser check
  // ---------------------------------------------------------------------

  /** `app_svc.Error`, a named (name, msg) pair. */
  datatype Error = Error(name: string, msg: string)

  const BrowserError: Error := Error("browser", "chrome not being used")

  /** `sub` occurs in `text` at position `i`. */
  predicate OccursAt(text: string, sub: string, i: nat)
  {
    i + |sub| <= |text| && text[i..i + |sub|] == sub
  }

  /** Python's `sub in text` on strings, scanning from the left. */
  predicate Contains(text: string, sub: string)
    decreases |text|
  {
    (|sub| <= |text| && text[..|sub|] == sub) || (text != [] && Contains(text[1..], sub))
  }

  lemma {:induction false} ContainsIff(text: string, sub: string)
    ensures Contains(text, sub) <==> exists i: nat :: i <= |text| && OccursAt(text, sub, i)
    decreases |text|
  {
    if |sub| <= |text| && text[..|sub|] == sub {
      assert OccursAt(text, sub, 0);
    } else if text != [] {
      ContainsIff(text[1..], sub);
      if Contains(text[1..], sub) {
        var i: nat :| i <= |text[1..]| && OccursAt(text[1..], sub, i);
        assert text[1..][i..i + |sub|] == text[i + 1..i + 1 + |sub|];
        assert OccursAt(text, sub, i + 1);
      } else {
        forall i: nat | 0 < i <= |text| && OccursAt(text, sub, i) ensures false {
          assert text[1..][i - 1..i - 1 + |sub|] == text[i..i + |sub|];
          assert OccursAt(text[1..], sub, i - 1);
        }
      }
    }
  }

  /** How `_request_errors` ends. */
  datatype BrowserCheck =
    | Errors(errors: seq<Error>)
    | NotIterable                          // TypeError: `'Chrome' in None`

  /** `_request_errors`: an error unless the User-Agent mentions Chrome. */
  method RequestErrors(userAgent: Option<string>) returns (r: BrowserCheck)
    ensures userAgent.None? <==> r.NotIterable?
    ensures userAgent.Some? ==>
              (r.errors == [] <==> exists i: nat :: i <= |userAgent.value| && OccursAt(userAgent.value, "Chrome", i))
    ensures userAgent.Some? && r.errors != [] ==> r.errors == [BrowserError]
  {
    if userAgent.None? {
      return NotIterable;
    }
    var errors: seq<Error> := [];
    ContainsIff(userAgent.value, "Chrome");
    if !Contains(userAgent.value, "Chrome") {
      errors := errors + [BrowserError];
    }
    r := Errors(errors);
  }
}
