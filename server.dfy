/** The JSON-RPC 2.0 endpoint of src/index.js: the three tool handlers of
    `handleToolCall`, the fixed tool and resource descriptors, and the
    method switch of the `/mcp` route, with the two `catch` blocks that turn
    thrown errors into error responses. */
module Server {
  import opened JsValue
  import opened Ascii
  import opened Catalog

  const JsonRpcVersion := "2.0"

  /** JSON-RPC error codes the endpoint uses. */
  const MethodNotFound: int := -32601
  const InvalidParams: int := -32602
  const InternalError: int := -32603

  const WidgetUri := "ui://widget/driver-card.html"
  const WidgetMimeType := "text/html+skybridge"

  const NoMatchMessage := "No drivers found matching your criteria. Try searching with different parameters."
  const NotFoundMessage := "Driver not found. Use `list_all_drivers` to see available drivers."

  // ---------------------------------------------------------------------------
  // Requests

  /** The fields of `params.arguments` the tools read. A missing or falsy
      `arguments` (replaced by `{}`) is an Args whose fields are all Undefined. */
  datatype Args = Args(city: Val, vehicleType: Val, driverId: Val)

  /** The fields of `params` the switch reads; an absent `params` is a Params
      whose fields are all Undefined. */
  datatype Params = Params(uri: Val, name: Val, arguments: Args)

  /** The parsed request body. An absent `id` or `method` is Undefined; `method` is called `methodName` here, `method` being a Dafny keyword. */
  datatype Request = Request(id: Val, methodName: Val, params: Params)

  // ---------------------------------------------------------------------------
  // Tool results

  /** The markdown a tool returns, kept as the document it renders rather
      than as its text. */
  datatype Markdown =
    | Notice(message: string)             // one fixed sentence
    | Profiles(drivers: seq<Driver>)      // the search profiles, closing with a booking line
    | Directory(entries: seq<Summary>)    // the "Available Drivers" listing
    | FullProfile(driver: Driver)         // one profile with its weekly availability

  datatype Content = Text(text: Markdown)

  /** `{content, structuredContent?: {drivers}}`. */
  datatype ToolResult = ToolResult(content: seq<Content>, structuredContent: Option<seq<Driver>>)

  // ---------------------------------------------------------------------------
  // Descriptors the endpoint serves

  datatype SchemaProperty = SchemaProperty(name: string, kind: string, description: string)

  /** The `_meta` of a tool: the widget template that renders its result and
      the status lines shown while and after it runs. */
  datatype ToolMeta = ToolMeta(outputTemplate: string, invoking: string, invoked: string)

  datatype ToolDescriptor = ToolDescriptor(
    name: string,
    title: Option<string>,
    description: string,
    properties: seq<SchemaProperty>,
    required: Option<seq<string>>,
    meta: Option<ToolMeta>)

  const SearchTool := ToolDescriptor(
    "search_drivers",
    Some("Search Drivers"),
    "Search for available drivers in your area. Use when user asks to: find drivers, book a driver, need transportation, search for rides, or asks about available drivers. Returns driver profiles with ratings, vehicle info, and availability.",
    [ SchemaProperty("city", "string", "Optional: Filter by city (e.g., \"San Francisco\")"),
      SchemaProperty("vehicleType", "string", "Optional: Filter by vehicle type (e.g., \"Sedan\", \"SUV\", \"Van\", \"Luxury\")") ],
    None,
    Some(ToolMeta(WidgetUri, "Searching for drivers...", "Driver profiles displayed")))

  const ListTool := ToolDescriptor(
    "list_all_drivers",
    None,
    "List all available drivers with their basic information including ratings, vehicle types, and rates.",
    [],
    None,
    None)

  const DetailsTool := ToolDescriptor(
    "get_driver_details",
    None,
    "Get detailed information about a specific driver including full availability schedule and complete profile.",
    [ SchemaProperty("driverId", "string", "The driver ID (e.g., \"driver-001\")") ],
    Some(["driverId"]),
    Some(ToolMeta(WidgetUri, "Loading driver profile...", "Driver profile displayed")))

  /** The registry `tools/list` returns, in this order. */
  const Tools: seq<ToolDescriptor> := [SearchTool, ListTool, DetailsTool]

  /** The names of the registered tools, which `handleToolCall` dispatches on. */
  const ToolNames := ["search_drivers", "list_all_drivers", "get_driver_details"]

  function Names(ts: seq<ToolDescriptor>): (r: seq<string>)
    ensures |r| == |ts|
    ensures forall i :: 0 <= i < |ts| ==> r[i] == ts[i].name
  {
    if ts == [] then [] else [ts[0].name] + Names(ts[1..])
  }

  datatype ServerInfo = ServerInfo(
    protocolVersion: string, capabilities: seq<string>, name: string, version: string, description: string)

  const Info := ServerInfo(
    "2024-11-05",
    ["tools", "resources"],
    "drivers",
    "1.0.0",
    "Find and book professional drivers in your area. Browse available drivers, view their profiles with ratings and availability, and book rides for any occasion.")

  datatype ResourceDescriptor = ResourceDescriptor(uri: string, name: string, description: string, mimeType: string)

  const WidgetResource := ResourceDescriptor(
    WidgetUri, "Driver Profile Widget", "Interactive driver profile component with booking information", WidgetMimeType)

  datatype ResourceContent = ResourceContent(
    uri: string, mimeType: string, text: string, prefersBorder: bool, widgetDescription: string)

  const WidgetDescription := "Displays driver profiles with ratings, vehicle information, availability, and booking options."

  /** The root element the component mounts into. */
  const RootElement := "<div id=\"root\"></div>"
  const ScriptOpen := "\n<script type=\"module\">"
  const ScriptClose := "</script>"

  /** The widget document: it begins with the root element, and the text of
      its one module script is the component bundle. A bundle that failed to
      load is interpolated as "null". */
  function WidgetDocument(bundle: Option<string>): (r: string)
    ensures |RootElement| + |ScriptOpen| + |ScriptClose| <= |r|
    ensures r[..|RootElement|] == RootElement
    ensures r[|RootElement|..|RootElement| + |ScriptOpen|] == ScriptOpen
    ensures r[|r| - |ScriptClose|..] == ScriptClose
    ensures bundle.Some? ==> r[|RootElement| + |ScriptOpen|..|r| - |ScriptClose|] == bundle.value
    ensures bundle.None? ==> r[|RootElement| + |ScriptOpen|..|r| - |ScriptClose|] == "null"
  {
    var code := match bundle case Some(c) => c case None => "null";
    var r := RootElement + ScriptOpen + code + ScriptClose;
    assert r[..|RootElement|] == RootElement;
    assert r[|RootElement|..|RootElement| + |ScriptOpen|] == ScriptOpen;
    assert r[|RootElement| + |ScriptOpen|..|r| - |ScriptClose|] == code;
    assert r[|r| - |ScriptClose|..] == ScriptClose;
    r
  }

  // ---------------------------------------------------------------------------
  // Responses

  datatype ResultBody =
    | Initialized(info: ServerInfo)
    | ResourceList(resources: seq<ResourceDescriptor>)
    | ResourceRead(contents: seq<ResourceContent>)
    | ToolList(tools: seq<ToolDescriptor>)
    | ToolCalled(toolResult: ToolResult)

  /** A response carries exactly one of `result` and `error`. */
  datatype Payload = Result(result: ResultBody) | Error(code: int, message: string)

  datatype Response = Response(jsonrpc: string, id: Val, payload: Payload)

  /** What the route sends: an HTTP status and a response body. */
  datatype Reply = Reply(status: nat, response: Response)

  // ---------------------------------------------------------------------------
  // Tool handlers

  /** The argument a filter on field f reads, as the code spells it. */
  function ArgPath(f: Field): string
  {
    match f
    case City => "args.city"
    case VehicleType => "args.vehicleType"
  }

  /** `if (arg) ds = ds.filter(...)`. A truthy argument that is not a string
      has no `toLowerCase`: the callback throws, but only if it runs, that is
      only if there is a record to test. */
  function ApplyFilter(ds: seq<Driver>, f: Field, arg: Val): Completion<seq<Driver>>
  {
    if !Truthy(arg) then Normal(ds)
    else if arg.Str? then Normal(FilterField(ds, f, Lower(arg.s)))
    else if ds == [] then Normal([])
    else Throw(ArgPath(f) + ".toLowerCase is not a function")
  }

  /** The argument is either ignored (falsy) or a string the filter can use. */
  predicate Usable(arg: Val)
  {
    !Truthy(arg) || arg.Str?
  }

  /** The needle a usable argument contributes to the search. */
  function ActiveNeedle(arg: Val): Option<string>
  {
    if Truthy(arg) && arg.Str? then Some(arg.s) else None
  }

  /** `search_drivers`: filter by city, then by vehicle type, keep the first 3. */
  function SearchDrivers(catalog: seq<Driver>, args: Args): (r: Completion<ToolResult>)
    ensures r.Normal? ==> |r.value.content| == 1
    ensures r.Normal? ==>
      (r.value.structuredContent.None? <==> r.value.content == [Text(Notice(NoMatchMessage))])
    ensures r.Normal? && r.value.structuredContent.Some? ==>
      var s := r.value.structuredContent.value;
      && 1 <= |s| <= 3
      && r.value.content == [Text(Profiles(s))]
      && forall d :: d in s ==> d in catalog
  {
    var byCity :- ApplyFilter(catalog, City, args.city);
    var filtered :- ApplyFilter(byCity, VehicleType, args.vehicleType);
    var selected := First(filtered, 3);
    if |selected| == 0 then
      Normal(ToolResult([Text(Notice(NoMatchMessage))], None))
    else
      Normal(ToolResult([Text(Profiles(selected))], Some(selected)))
  }

  /** `list_all_drivers`: one summary per record, text only. */
  function ListAllDrivers(catalog: seq<Driver>): (r: ToolResult)
    ensures r.structuredContent.None?
    ensures |r.content| == 1 && r.content[0].text.Directory?
    ensures var s := r.content[0].text.entries;
      |s| == |catalog| && forall i :: 0 <= i < |catalog| ==> s[i] == Summarize(catalog[i])
  {
    ToolResult([Text(Directory(Summaries(catalog)))], None)
  }

  /** `get_driver_details`: the first record whose id is `driverId`. */
  function GetDriverDetails(catalog: seq<Driver>, driverId: Val): (r: ToolResult)
    ensures forall k ::
      (0 <= k < |catalog| && driverId == Str(catalog[k].id)
       && forall j :: 0 <= j < k ==> catalog[j].id != catalog[k].id) ==>
      r == ToolResult([Text(FullProfile(catalog[k]))], Some([catalog[k]]))
    ensures (!driverId.Str? || forall d :: d in catalog ==> d.id != driverId.s) ==>
      r == ToolResult([Text(Notice(NotFoundMessage))], None)
  {
    match FindById(catalog, driverId)
    case None => ToolResult([Text(Notice(NotFoundMessage))], None)
    case Some(d) => ToolResult([Text(FullProfile(d))], Some([d]))
  }

  /** `handleToolCall`: a switch on the tool name; any other name throws. */
  function HandleToolCall(catalog: seq<Driver>, name: Val, args: Args): (r: Completion<ToolResult>)
    ensures !(name.Str? && name.s in ToolNames) && Interpolate(name).Some? ==>
      r == Throw("Unknown tool: " + Interpolate(name).value)
    ensures Interpolate(name).None? ==> r == Throw(ToPrimitiveError)
  {
    if name == Str("search_drivers") then SearchDrivers(catalog, args)
    else if name == Str("list_all_drivers") then Normal(ListAllDrivers(catalog))
    else if name == Str("get_driver_details") then Normal(GetDriverDetails(catalog, args.driverId))
    else match Interpolate(name)
      case Some(t) => Throw("Unknown tool: " + t)
      case None => Throw(ToPrimitiveError)
  }

  // ---------------------------------------------------------------------------
  // The method switch

  function Answer(req: Request, payload: Payload): Response
  {
    Response(JsonRpcVersion, req.id, payload)
  }

  /** The `try` block of the route: builds one response, or throws when a
      message template cannot interpolate the method or uri. Tool errors are
      caught inside, so `tools/call` never throws. */
  function Route(catalog: seq<Driver>, bundle: Option<string>, req: Request): (r: Completion<Response>)
    ensures r.Normal? ==> r.value.id == req.id && r.value.jsonrpc == JsonRpcVersion
    ensures r.Normal? && r.value.payload.Error? ==>
      r.value.payload.code in {MethodNotFound, InvalidParams, InternalError}
    ensures r.Throw? ==> r.message == ToPrimitiveError
  {
    if req.methodName == Str("initialize") then
      Normal(Answer(req, Result(Initialized(Info))))
    else if req.methodName == Str("resources/list") then
      Normal(Answer(req, Result(ResourceList([WidgetResource]))))
    else if req.methodName == Str("resources/read") then
      if req.params.uri == Str(WidgetUri) then
        Normal(Answer(req, Result(ResourceRead(
          [ResourceContent(WidgetUri, WidgetMimeType, WidgetDocument(bundle), false, WidgetDescription)]))))
      else
        match Interpolate(req.params.uri)
        case Some(t) => Normal(Answer(req, Error(InvalidParams, "Unknown resource: " + t)))
        case None => Throw(ToPrimitiveError)
    else if req.methodName == Str("tools/list") then
      Normal(Answer(req, Result(ToolList(Tools))))
    else if req.methodName == Str("tools/call") then
      match HandleToolCall(catalog, req.params.name, req.params.arguments)
      case Normal(result) => Normal(Answer(req, Result(ToolCalled(result))))
      case Throw(m) => Normal(Answer(req, Error(InternalError, m)))
    else
      match Interpolate(req.methodName)
      case Some(t) => Normal(Answer(req, Error(MethodNotFound, "Method not found: " + t)))
      case None => Throw(ToPrimitiveError)
  }

  /** The whole `/mcp` handler: the switch's response with status 200, or the
      outer `catch` with status 500, whose id is `req.body?.id || null`. */
  function Dispatch(catalog: seq<Driver>, bundle: Option<string>, req: Request): (r: Reply)
    ensures r.response.jsonrpc == JsonRpcVersion
    ensures r.status == 200 || r.status == 500
    ensures r.status == 200 ==> r.response.id == req.id
    ensures r.status == 500 ==>
      && r.response.id == (if Truthy(req.id) then req.id else Null)
      && r.response.payload == Error(InternalError, ToPrimitiveError)
  {
    match Route(catalog, bundle, req)
    case Normal(response) => Reply(200, response)
    case Throw(m) =>
      Reply(500, Response(JsonRpcVersion, if Truthy(req.id) then req.id else Null, Error(InternalError, m)))
  }

  // ---------------------------------------------------------------------------
  // Properties of the tool handlers

  lemma FilterOnUsableArg(ds: seq<Driver>, f: Field, arg: Val)
    requires Usable(arg)
    ensures ApplyFilter(ds, f, arg) == Normal(FilterOptional(ds, f, ActiveNeedle(arg)))
  {
  }

  /** With string (or falsy) filters, `search_drivers` returns the first
      three records of the catalog that match every given filter, in catalog
      order, and the fixed notice when none match. */
  lemma SearchSelectsFirstMatches(catalog: seq<Driver>, args: Args)
    requires Usable(args.city) && Usable(args.vehicleType)
    ensures var m := Matching(catalog, ActiveNeedle(args.city), ActiveNeedle(args.vehicleType));
      && SearchDrivers(catalog, args).Normal?
      && (m == [] ==>
            SearchDrivers(catalog, args).value == ToolResult([Text(Notice(NoMatchMessage))], None))
      && (m != [] ==>
            SearchDrivers(catalog, args).value == ToolResult([Text(Profiles(First(m, 3)))], Some(First(m, 3))))
  {
    FilterOnUsableArg(catalog, City, args.city);
    FilterOnUsableArg(FilterOptional(catalog, City, ActiveNeedle(args.city)), VehicleType, args.vehicleType);
    FiltersComposeToMatching(catalog, ActiveNeedle(args.city), ActiveNeedle(args.vehicleType));
  }

  /** Every driver a search returns comes from the catalog and passes each
      filter that was given: its lower-cased city contains the lower-cased
      city argument, and likewise for the vehicle type. */
  lemma SearchResultsPassFilters(catalog: seq<Driver>, args: Args)
    requires Usable(args.city) && Usable(args.vehicleType)
    ensures var r := SearchDrivers(catalog, args);
      r.Normal? && r.value.structuredContent.Some? ==>
        forall d :: d in r.value.structuredContent.value ==>
          && d in catalog
          && (Truthy(args.city) ==> Includes(Lower(d.serviceArea.city), Lower(args.city.s)))
          && (Truthy(args.vehicleType) ==> Includes(Lower(d.vehicle.kind), Lower(args.vehicleType.s)))
  {
    SearchSelectsFirstMatches(catalog, args);
    var m := Matching(catalog, ActiveNeedle(args.city), ActiveNeedle(args.vehicleType));
    forall d | d in First(m, 3) ensures d in m {
      var i :| 0 <= i < |First(m, 3)| && First(m, 3)[i] == d;
      assert m[i] == d;
    }
  }

  /** A missing or empty filter removes nothing: with neither filter given,
      a search returns the first three records of the catalog. */
  lemma SearchWithoutFilters(catalog: seq<Driver>, args: Args)
    requires !Truthy(args.city) && !Truthy(args.vehicleType)
    ensures catalog == [] ==>
      SearchDrivers(catalog, args) == Normal(ToolResult([Text(Notice(NoMatchMessage))], None))
    ensures catalog != [] ==>
      SearchDrivers(catalog, args) == Normal(ToolResult([Text(Profiles(First(catalog, 3)))], Some(First(catalog, 3))))
  {
    SearchSelectsFirstMatches(catalog, args);
    MatchingNothingKeepsAll(catalog);
  }

  /** A search throws exactly when a truthy non-string filter meets a
      non-empty list: the catalog for the city filter, the city-filtered list
      for the vehicle-type filter. */
  lemma SearchThrowsIff(catalog: seq<Driver>, args: Args)
    ensures SearchDrivers(catalog, args).Throw? <==>
      || (!Usable(args.city) && catalog != [])
      || (Usable(args.city) && !Usable(args.vehicleType)
          && FilterOptional(catalog, City, ActiveNeedle(args.city)) != [])
  {
    var c, v := args.city, args.vehicleType;
    if !Usable(c) && catalog != [] {
      CityFilterThrows(catalog, args);
    } else {
      var byCity := if Usable(c) then FilterOptional(catalog, City, ActiveNeedle(c)) else [];
      if Usable(c) {
        FilterOnUsableArg(catalog, City, c);
      }
      assert ApplyFilter(catalog, City, c) == Normal(byCity);
      SearchAfterCity(catalog, args, byCity);
    }
  }

  /** A truthy non-string city throws as soon as there is a record to test. */
  lemma CityFilterThrows(catalog: seq<Driver>, args: Args)
    requires !Usable(args.city) && catalog != []
    ensures SearchDrivers(catalog, args) == Throw("args.city.toLowerCase is not a function")
  {
    var m := ArgPath(City) + ".toLowerCase is not a function";
    assert ApplyFilter(catalog, City, args.city) == Throw(m);
    assert SearchDrivers(catalog, args) == Throw(m);
    CityErrorText();
  }

  lemma CityErrorText()
    ensures ArgPath(City) + ".toLowerCase is not a function" == "args.city.toLowerCase is not a function"
  {
  }

  lemma SearchAfterCity(catalog: seq<Driver>, args: Args, byCity: seq<Driver>)
    requires ApplyFilter(catalog, City, args.city) == Normal(byCity)
    ensures SearchDrivers(catalog, args).Throw? <==> !Usable(args.vehicleType) && byCity != []
  {
    if !Usable(args.vehicleType) && byCity != [] {
      assert ApplyFilter(byCity, VehicleType, args.vehicleType).Throw?;
    } else {
      assert ApplyFilter(byCity, VehicleType, args.vehicleType).Normal?;
    }
  }

  /** The example of a city search: "francisco" finds the San Francisco
      sedan and not the Oakland SUV. */
  lemma SearchExample(d1: Driver, d2: Driver)
    requires d1.id == "driver-001" && d1.serviceArea.city == "San Francisco" && d1.vehicle.kind == "Sedan"
    requires d2.id == "driver-002" && d2.serviceArea.city == "Oakland" && d2.vehicle.kind == "SUV"
    ensures SearchDrivers([d1, d2], Args(Str("francisco"), Undefined, Undefined)).value.structuredContent
            == Some([d1])
  {
    var needle := Lower("francisco");
    FranciscoMatches();
    OaklandDoesNotMatch();
    assert FieldIncludes(d1, City, needle);
    assert !FieldIncludes(d2, City, needle);
    assert FilterField([d1, d2], City, needle) == [d1] by {
      assert [d1, d2][1..] == [d2];
      assert [d2][1..] == [];
    }
  }

  lemma FranciscoMatches()
    ensures Includes(Lower("San Francisco"), Lower("francisco"))
  {
    LowerSanFrancisco();
    LowerFrancisco();
    IncludesAt("san francisco", "francisco", 4);
  }

  lemma OaklandDoesNotMatch()
    ensures !Includes(Lower("Oakland"), Lower("francisco"))
  {
    LowerOakland();
    LowerFrancisco();
    IncludesIffOccurs("oakland", "francisco");
  }

  lemma LowerSanFrancisco() ensures Lower("San Francisco") == "san francisco" {}
  lemma LowerFrancisco() ensures Lower("francisco") == "francisco" {}
  lemma LowerOakland() ensures Lower("Oakland") == "oakland" {}

  /** A registered tool name never raises "Unknown tool" (given usable
      filters), and every other name does. */
  lemma KnownToolsIff(catalog: seq<Driver>, name: string, args: Args)
    requires Usable(args.city) && Usable(args.vehicleType)
    ensures HandleToolCall(catalog, Str(name), args).Normal? <==> name in ToolNames
    ensures name !in ToolNames ==> HandleToolCall(catalog, Str(name), args) == Throw("Unknown tool: " + name)
  {
    SearchSelectsFirstMatches(catalog, args);
  }

  /** With unique ids, `get_driver_details` on a record's id answers with that
      record alone. */
  lemma DetailsOfListedDriver(catalog: seq<Driver>, d: Driver)
    requires UniqueIds(catalog) && d in catalog
    ensures GetDriverDetails(catalog, Str(d.id)) == ToolResult([Text(FullProfile(d))], Some([d]))
  {
    FindByIdUnique(catalog, d);
  }

  // ---------------------------------------------------------------------------
  // Properties of the method switch

  /** `tools/call` never reaches the outer catch: a tool's result becomes
      `result`, a tool's error the -32603 error with its message. */
  lemma ToolsCallNeverFaults(catalog: seq<Driver>, bundle: Option<string>, req: Request)
    requires req.methodName == Str("tools/call")
    ensures var r := Dispatch(catalog, bundle, req);
      && r.status == 200
      && r.response.id == req.id
      && match HandleToolCall(catalog, req.params.name, req.params.arguments)
         case Normal(result) => r.response.payload == Result(ToolCalled(result))
         case Throw(m) => r.response.payload == Error(InternalError, m)
  {
  }

  /** Calling an unknown tool yields error -32603 "Unknown tool: <name>". */
  lemma UnknownToolIsInternalError(catalog: seq<Driver>, bundle: Option<string>, req: Request)
    requires req.methodName == Str("tools/call")
    requires req.params.name.Str? && req.params.name.s !in ToolNames
    ensures Dispatch(catalog, bundle, req)
         == Reply(200, Response(JsonRpcVersion, req.id, Error(InternalError, "Unknown tool: " + req.params.name.s)))
  {
  }

  /** `tools/list` returns the three tools in their fixed order. */
  lemma ToolsListed(catalog: seq<Driver>, bundle: Option<string>, req: Request)
    requires req.methodName == Str("tools/list")
    ensures Dispatch(catalog, bundle, req) == Reply(200, Response(JsonRpcVersion, req.id, Result(ToolList(Tools))))
    ensures Names(Tools) == ["search_drivers", "list_all_drivers", "get_driver_details"]
  {
    assert Names(Tools) == [SearchTool.name] + Names([ListTool, DetailsTool]);
    assert Names([ListTool, DetailsTool]) == [ListTool.name] + Names([DetailsTool]);
  }

  /** The tools that can return structured content, and only those, name the
      one widget template, which is the uri `resources/read` serves. */
  lemma WidgetTemplatesAgree()
    ensures forall t :: t in Tools && t.meta.Some? ==> t.meta.value.outputTemplate == WidgetUri
    ensures SearchTool.meta.Some? && DetailsTool.meta.Some? && ListTool.meta.None?
    ensures forall c :: ListAllDrivers(c).structuredContent.None?
  {
  }

  /** `resources/read`: the widget document for the widget uri, -32602
      "Unknown resource: <uri>" for any other uri that can be printed. */
  lemma ResourceReadCases(catalog: seq<Driver>, bundle: Option<string>, req: Request)
    requires req.methodName == Str("resources/read")
    ensures req.params.uri == Str(WidgetUri) ==>
      Dispatch(catalog, bundle, req).response.payload
        == Result(ResourceRead([ResourceContent(WidgetUri, WidgetMimeType, WidgetDocument(bundle), false, WidgetDescription)]))
    ensures req.params.uri != Str(WidgetUri) && Interpolate(req.params.uri).Some? ==>
      Dispatch(catalog, bundle, req)
        == Reply(200, Response(JsonRpcVersion, req.id,
                   Error(InvalidParams, "Unknown resource: " + Interpolate(req.params.uri).value)))
  {
  }

  /** Any method outside the five handled ones that can be printed yields
      -32601, a missing method included ("Method not found: undefined"). */
  lemma UnknownMethod(catalog: seq<Driver>, bundle: Option<string>, req: Request)
    requires !(req.methodName.Str? &&
               req.methodName.s in ["initialize", "resources/list", "resources/read", "tools/list", "tools/call"])
    requires Interpolate(req.methodName).Some?
    ensures Dispatch(catalog, bundle, req)
         == Reply(200, Response(JsonRpcVersion, req.id,
                    Error(MethodNotFound, "Method not found: " + Interpolate(req.methodName).value)))
  {
  }

  /** Each error code has one cause: -32601 an unhandled method, -32602 an
      unknown resource, -32603 a failed tool call or the outer catch. */
  lemma ErrorCodesHaveOneCause(catalog: seq<Driver>, bundle: Option<string>, req: Request)
    ensures var r := Dispatch(catalog, bundle, req);
      r.response.payload.Error? ==>
        && (r.response.payload.code == MethodNotFound <==>
              r.status == 200
              && req.methodName !in [Str("initialize"), Str("resources/list"), Str("resources/read"),
                                     Str("tools/list"), Str("tools/call")])
        && (r.response.payload.code == InvalidParams <==>
              r.status == 200 && req.methodName == Str("resources/read"))
        && (r.response.payload.code == InternalError <==>
              r.status == 500 || req.methodName == Str("tools/call"))
  {
  }

  /** The outer catch is reached only when a message template cannot print
      the method or the uri; there a falsy id (0, "", false, null) reads as
      null. */
  lemma OuterCatchCases(catalog: seq<Driver>, bundle: Option<string>, req: Request)
    ensures Dispatch(catalog, bundle, req).status == 500 <==>
      || (req.methodName == Str("resources/read") && req.params.uri != Str(WidgetUri)
          && Interpolate(req.params.uri).None?)
      || (req.methodName !in [Str("initialize"), Str("resources/list"), Str("resources/read"),
                              Str("tools/list"), Str("tools/call")]
          && Interpolate(req.methodName).None?)
    ensures Dispatch(catalog, bundle, req).status == 500 && !Truthy(req.id) ==>
      Dispatch(catalog, bundle, req).response.id == Null
  {
  }
}
