/** The `zdata` client for the Zoho Writer, Sheet and Show document APIs:
    argument validation, the per-client ticket cache with its login-response
    parser, and the request URLs. The network is a parameter `fetch` that maps
    a URL to the body the server answers with; every operation also reports
    the URLs it requested, in order, as `sent`. */
module ZData {
  import opened PyText

  /** The exceptions the client raises. */
  datatype Error =
    | NotServiceName(servicename: string)  // __check_servicename
    | NotFormat(format: string)            // __check_format
    | NotAccess(access: string)            // __check_access
    | LoginFailed(cause: string)           // the server answered RESULT=FALSE
    | NoMatch(key: string)                 // IndexError of re.findall(...)[0]

  datatype Outcome = Pass | Fail(error: Error)

  datatype Result<+T> = Success(value: T) | Failure(error: Error)

  /** The three document services, and the name each is known by. */
  datatype Service = Writer | Sheet | Show

  function Name(service: Service): string
  {
    match service
    case Writer => "ZohoWriter"
    case Sheet => "ZohoSheet"
    case Show => "ZohoShow"
  }

  const ServiceNames: seq<string> := ["ZohoWriter", "ZohoSheet", "ZohoShow"]
  const ResponseFormats: seq<string> := ["xml", "json"]
  const AccessLevels: seq<string> := ["private", "public"]

  /** The export formats `__check_format` lists for each service. */
  function ExportFormats(service: Service): (formats: seq<string>)
    ensures "xml" !in formats && "json" !in formats
  {
    match service
    case Writer => ["doc", "docx", "pdf", "html", "sxw", "odt", "rtf"]
    case Sheet => ["xls", "xlsx", "ods", "sxc", "pdf", "html", "csv", "tsv"]
    case Show => ["ppt", "pps", "odp", "pdf"]
  }

  /** Python truthiness of a value that is `None` or a string: `None` and
      the empty string are false, every other string is true. */
  function Truthy(v: Option<string>): (b: bool)
    ensures b <==> v != None && v != Some("")
  {
    v.Some? && v.value != ""
  }

  // ---------------------------------------------------------------------
  // Argument validation

  function CheckServiceName(servicename: string): (r: Outcome)
    ensures r == Pass <==> servicename == Name(Writer) || servicename == Name(Sheet) || servicename == Name(Show)
    ensures r.Fail? ==> r.error == NotServiceName(servicename)
  {
    if servicename in ServiceNames then Pass else Fail(NotServiceName(servicename))
  }

  /** The service an if/elif chain of `servicename in "Zoho..."` tests picks:
      the first service whose name CONTAINS the given text. */
  function Branch(servicename: string): (r: Option<Service>)
    ensures r.Some? ==> Contains(Name(r.value), servicename)
    ensures r.None? <==> forall s: Service :: !Contains(Name(s), servicename)
    // the if/elif order: an earlier service whose name contains the text wins
    ensures r == Some(Sheet) ==> !Contains(Name(Writer), servicename)
    ensures r == Some(Show) ==>
      !Contains(Name(Writer), servicename) && !Contains(Name(Sheet), servicename)
  {
    if Contains("ZohoWriter", servicename) then Some(Writer)
    else if Contains("ZohoSheet", servicename) then Some(Sheet)
    else if Contains("ZohoShow", servicename) then Some(Show)
    else None
  }

  /** `__check_format(format, servicename)`; `None` is the default argument.
      A service name that picks a branch demands one of that service's export
      formats, and then every format must also be "xml" or "json". */
  function CheckFormat(format: string, servicename: Option<string> := None): (r: Outcome)
    ensures r == Pass <==>
      && (format == "xml" || format == "json")
      && (!Truthy(servicename) || Branch(servicename.value).None?)
    ensures r.Fail? ==> r.error == NotFormat(format)
  {
    var exportOk :=
      if Truthy(servicename) then
        match Branch(servicename.value)
        case Some(s) => format in ExportFormats(s)
        case None => true
      else true;
    if !exportOk then Fail(NotFormat(format))
    else if format !in ResponseFormats then Fail(NotFormat(format))
    else Pass
  }

  function CheckAccess(access: string): (r: Outcome)
    ensures r == Pass <==> access == "private" || access == "public"
    ensures r.Fail? ==> r.error == NotAccess(access)
  {
    if access in AccessLevels then Pass else Fail(NotAccess(access))
  }

  // ---------------------------------------------------------------------
  // URL templates: each template the client formats, cut at its `%s` holes

  /** `URL_TICKET`, the login URL template of `__init__`. */
  function TicketTemplate(): string
  {
    Template(TicketPieces())
  }

  function TicketPieces(): (p: seq<string>)
    ensures |p| == 4 && p[3] == ""
  {
    ["https://accounts.zoho.com/login?servicename=", "&FROM_AGENT=true&LOGIN_ID=", "&PASSWORD=", ""]
  }

  /** The document-list template of each branch of `get_list`. */
  function ListTemplate(service: Service): string
  {
    Template(ListPieces(service))
  }

  function ListPieces(service: Service): (p: seq<string>)
    ensures |p| == 4 && p[3] == ""
  {
    match service
    case Writer => ["https://export.writer.zoho.com/api/private/", "/documents?apikey=", "&ticket=", ""]
    case Sheet => ["https://sheet.zoho.com/api/private/", "/books?apikey=", "&ticket=", ""]
    case Show => ["http://show.zoho.com/api/private/", "/presentations?apikey=", "&ticket=", ""]
  }

  /** The document-content template of each branch of `get_content`. */
  function ContentTemplate(service: Service): string
  {
    Template(ContentPieces(service))
  }

  function ContentPieces(service: Service): (p: seq<string>)
    ensures |p| == 6 && p[5] == ""
  {
    match service
    case Writer => ["https://export.writer.zoho.com/api/", "/", "/content/", "?apikey=", "&ticket=", ""]
    case Sheet => ["https://sheet.zoho.com/api/", "/", "/content/", "?apikey=", "&ticket=", ""]
    case Show => ["https://show.zoho.com/api/", "/", "/content/", "?apikey=", "&ticket=", ""]
  }

  lemma NoPercentFour(p: seq<string>)
    requires |p| == 4
    requires '%' !in p[0] && '%' !in p[1] && '%' !in p[2] && '%' !in p[3]
    ensures NoPercent(p)
  {
    assert p[1..][1..] == p[2..];
    assert p[2..][1..] == p[3..];
    assert p[3..][1..] == [];
    assert NoPercent(p[3..]);
    assert NoPercent(p[2..]);
    assert NoPercent(p[1..]);
  }

  lemma NoPercentSix(p: seq<string>)
    requires |p| == 6
    requires '%' !in p[0] && '%' !in p[1] && '%' !in p[2] && '%' !in p[3] && '%' !in p[4] && '%' !in p[5]
    ensures NoPercent(p)
  {
    assert p[1..][1..] == p[2..];
    NoPercentFour(p[2..]);
    assert NoPercent(p[1..]);
  }

  /** The only conversions in the login template are its three `%s` holes. */
  lemma TicketPiecesClean()
    ensures |TicketPieces()| == 4 && NoPercent(TicketPieces())
  {
    var a, b, c := "https://accounts.zoho.com/login?servicename=", "&FROM_AGENT=true&LOGIN_ID=", "&PASSWORD=";
    var p := [a, b, c, ""];
    assert TicketPieces() == p;
    assert '%' !in a;
    assert '%' !in b;
    assert '%' !in c;
    NoPercentFour(p);
  }

  lemma ListPiecesFour(a: string, b: string)
    requires '%' !in a && '%' !in b
    ensures NoPercent([a, b, "&ticket=", ""])
  {
    NoPercentFour([a, b, "&ticket=", ""]);
  }

  lemma WriterListClean()
    ensures NoPercent(ListPieces(Writer))
  {
    ListPiecesFour("https://export.writer.zoho.com/api/private/", "/documents?apikey=");
  }

  lemma SheetListClean()
    ensures NoPercent(ListPieces(Sheet))
  {
    ListPiecesFour("https://sheet.zoho.com/api/private/", "/books?apikey=");
  }

  lemma ShowListClean()
    ensures NoPercent(ListPieces(Show))
  {
    ListPiecesFour("http://show.zoho.com/api/private/", "/presentations?apikey=");
  }

  /** The only conversions in a list template are its three `%s` holes. */
  lemma ListPiecesClean(service: Service)
    ensures |ListPieces(service)| == 4 && NoPercent(ListPieces(service))
  {
    match service
    case Writer => WriterListClean();
    case Sheet => SheetListClean();
    case Show => ShowListClean();
  }

  lemma ContentPiecesSix(host: string)
    requires '%' !in host
    ensures NoPercent([host, "/", "/content/", "?apikey=", "&ticket=", ""])
  {
    assert '%' !in "/content/";
    assert '%' !in "?apikey=";
    assert '%' !in "&ticket=";
    NoPercentSix([host, "/", "/content/", "?apikey=", "&ticket=", ""]);
  }

  lemma WriterContentClean()
    ensures NoPercent(ContentPieces(Writer))
  {
    ContentPiecesSix("https://export.writer.zoho.com/api/");
  }

  lemma SheetContentClean()
    ensures NoPercent(ContentPieces(Sheet))
  {
    ContentPiecesSix("https://sheet.zoho.com/api/");
  }

  lemma ShowContentClean()
    ensures NoPercent(ContentPieces(Show))
  {
    ContentPiecesSix("https://show.zoho.com/api/");
  }

  /** The only conversions in a content template are its five `%s` holes. */
  lemma ContentPiecesClean(service: Service)
    ensures |ContentPieces(service)| == 6 && NoPercent(ContentPieces(service))
  {
    match service
    case Writer => WriterContentClean();
    case Sheet => SheetContentClean();
    case Show => ShowContentClean();
  }

  // ---------------------------------------------------------------------
  // URL construction

  /** `URL_TICKET % (servicename, username, password)`. */
  function LoginUrl(servicename: string, username: string, password: string): (url: string)
    ensures Interpolate(TicketTemplate(), [servicename, username, password]) == Some(url)
  {
    TicketPiecesClean();
    InterpolateFills(TicketPieces(), [servicename, username, password]);
    Fill(TicketPieces(), [servicename, username, password])
  }

  /** The URL `get_list` requests: the template of the branch the service name
      picks, filled with format, API key and ticket in that order; `None`
      when no branch applies and `url` stays `None`. */
  function ListUrl(servicename: string, format: string, apikey: string, ticket: string): (url: Option<string>)
    ensures url.Some? <==> Branch(servicename).Some?
    ensures url.Some? ==>
      Interpolate(ListTemplate(Branch(servicename).value), [format, apikey, ticket]) == url
  {
    match Branch(servicename)
    case None => None
    case Some(s) =>
      ListPiecesClean(s);
      InterpolateFills(ListPieces(s), [format, apikey, ticket]);
      Some(Fill(ListPieces(s), [format, apikey, ticket]))
  }

  /** The URL `get_content` requests: access, format, document id, API key
      and ticket, in that order. */
  function ContentUrl(servicename: string, access: string, format: string, id: string,
                      apikey: string, ticket: string): (url: Option<string>)
    ensures url.Some? <==> Branch(servicename).Some?
    ensures url.Some? ==>
      Interpolate(ContentTemplate(Branch(servicename).value), [access, format, id, apikey, ticket]) == url
  {
    match Branch(servicename)
    case None => None
    case Some(s) =>
      ContentPiecesClean(s);
      InterpolateFills(ContentPieces(s), [access, format, id, apikey, ticket]);
      Some(Fill(ContentPieces(s), [access, format, id, apikey, ticket]))
  }

  // ---------------------------------------------------------------------
  // The login response

  /** What `get_ticket` makes of the body of the login response: the text
      after the first `RESULT=`; if that is exactly "FALSE" the login failed
      with the text after the first `CAUSE=`, otherwise the ticket is the text
      after the first `TICKET=`. A missing field is an IndexError. */
  function ParseLogin(data: string): (r: Result<string>)
    ensures r == Failure(NoMatch("RESULT=")) <==> forall i: nat :: !OccursAt(data, "RESULT=", i)
    ensures (exists cause :: r == Failure(LoginFailed(cause))) ==> IsFirstCapture(data, "RESULT=", "FALSE")
    ensures r.Failure? && r.error.LoginFailed? ==> IsFirstCapture(data, "CAUSE=", r.error.cause)
    ensures r == Failure(NoMatch("CAUSE=")) ==>
      IsFirstCapture(data, "RESULT=", "FALSE") && forall i: nat :: !OccursAt(data, "CAUSE=", i)
    ensures r == Failure(NoMatch("TICKET=")) ==>
      && (exists v :: IsFirstCapture(data, "RESULT=", v) && v != "FALSE")
      && forall i: nat :: !OccursAt(data, "TICKET=", i)
    ensures r.Success? ==>
      && (exists v :: IsFirstCapture(data, "RESULT=", v) && v != "FALSE")
      && IsFirstCapture(data, "TICKET=", r.value)
    // a missing field is an IndexError naming that field, and nothing else
    ensures r.Failure? ==>
      || r.error.LoginFailed?
      || r.error == NoMatch("RESULT=") || r.error == NoMatch("CAUSE=") || r.error == NoMatch("TICKET=")
    ensures IsFirstCapture(data, "RESULT=", "FALSE") && (forall i: nat :: !OccursAt(data, "CAUSE=", i)) ==>
      r == Failure(NoMatch("CAUSE="))
    ensures && (exists i: nat :: OccursAt(data, "RESULT=", i))
            && !IsFirstCapture(data, "RESULT=", "FALSE")
            && (forall i: nat :: !OccursAt(data, "TICKET=", i)) ==>
      r == Failure(NoMatch("TICKET="))
  {
    FirstCaptureExact(data, "RESULT=", "FALSE");
    FirstCaptureSpec(data, "RESULT=");
    FirstCaptureSpec(data, "CAUSE=");
    FirstCaptureSpec(data, "TICKET=");
    match FirstCapture(data, "RESULT=")
    case None => Failure(NoMatch("RESULT="))
    case Some(result) =>
      if result == "FALSE" then
        match FirstCapture(data, "CAUSE=")
        case None => Failure(NoMatch("CAUSE="))
        case Some(warning) => Failure(LoginFailed(warning))
      else
        match FirstCapture(data, "TICKET=")
        case None => Failure(NoMatch("TICKET="))
        case Some(ticket) => Success(ticket)
  }

  // ---------------------------------------------------------------------
  // Responses

  /** What `get_list` and `get_content` return: the body as it came, the body
      handed to `json.loads`, or nothing when the format matches neither. */
  datatype Reply = Raw(body: string) | Decoded(json: string) | NoReply

  /** The tail of `get_list`/`get_content`: `format in "json"` and
      `format in "xml"` are substring tests. */
  function Respond(format: string, asDict: bool, data: string): (r: Reply)
    ensures format == "xml" ==> r == Raw(data)
    ensures format == "json" ==> r == if asDict then Decoded(data) else Raw(data)
  {
    ContainsSelf("json");
    ContainsSelf("xml");
    Absent("json", "xml", 0);
    if Contains("json", format) then
      if asDict then Decoded(data) else Raw(data)
    else if Contains("xml", format) then Raw(data)
    else NoReply
  }

  // ---------------------------------------------------------------------
  // The ticket cache and the operations, as functions of the client's state

  type Cache = map<string, Option<string>>

  /** The cache holds exactly the three service names, as `__init__` sets it. */
  predicate KnownKeys(cache: Cache)
  {
    cache.Keys == {"ZohoWriter", "ZohoSheet", "ZohoShow"}
  }

  const EmptyCache: Cache := map["ZohoWriter" := None, "ZohoSheet" := None, "ZohoShow" := None]

  datatype Credentials = Credentials(username: string, password: string, apiKey: string)

  /** What one call does: its result, the cache afterwards, and the URLs it
      requested. */
  datatype Step<+T> = Step(result: Result<T>, cache: Cache, sent: seq<string>)

  /** `get_ticket(servicename)`. */
  function TicketStep(cache: Cache, creds: Credentials, fetch: string -> string,
                      servicename: string): (st: Step<string>)
    requires KnownKeys(cache)
    ensures KnownKeys(st.cache)
    ensures CheckServiceName(servicename).Fail? ==>
      st == Step(Failure(NotServiceName(servicename)), cache, [])
    ensures CheckServiceName(servicename) == Pass && Truthy(cache[servicename]) ==>
      st == Step(Success(cache[servicename].value), cache, [])
    ensures CheckServiceName(servicename) == Pass && !Truthy(cache[servicename]) ==>
      && st.sent == [LoginUrl(servicename, creds.username, creds.password)]
      && st.result == ParseLogin(fetch(st.sent[0]))
    ensures st.result.Failure? ==> st.cache == cache
    ensures st.result.Success? ==> st.cache == cache[servicename := Some(st.result.value)]
  {
    if CheckServiceName(servicename).Fail? then
      Step(Failure(NotServiceName(servicename)), cache, [])
    else if Truthy(cache[servicename]) then
      Step(Success(cache[servicename].value), cache, [])
    else
      var url := LoginUrl(servicename, creds.username, creds.password);
      var r := ParseLogin(fetch(url));
      Step(r, if r.Success? then cache[servicename := Some(r.value)] else cache, [url])
  }

  /** Each service's own name picks that service's branch: no name is a
      part of an earlier service's name. */
  lemma BranchOfName(s: Service)
    ensures Branch(Name(s)) == Some(s)
  {
    ContainsSelf(Name(s));
    if s != Writer {
      Absent("ZohoWriter", Name(s), 4);
    }
    if s == Show {
      Absent("ZohoSheet", "ZohoShow", 7);
    }
  }

  lemma KnownNameBranches(servicename: string)
    requires CheckServiceName(servicename) == Pass
    ensures Branch(servicename).Some? && Name(Branch(servicename).value) == servicename
  {
    var s := if servicename == Name(Writer) then Writer
             else if servicename == Name(Sheet) then Sheet
             else Show;
    BranchOfName(s);
  }

  /** `get_list(servicename, format="json", dict=False)`. */
  function ListStep(cache: Cache, creds: Credentials, fetch: string -> string,
                    servicename: string, format: string := "json", asDict: bool := false): (st: Step<Reply>)
    requires KnownKeys(cache)
    ensures KnownKeys(st.cache)
    // the arguments are checked, in this order, before any request
    ensures CheckServiceName(servicename).Fail? ==>
      st == Step(Failure(NotServiceName(servicename)), cache, [])
    ensures CheckServiceName(servicename) == Pass && CheckFormat(format).Fail? ==>
      st == Step(Failure(NotFormat(format)), cache, [])
    // past the checks: the exception of `get_ticket` reaches the caller as it
    // is; a ticket obtained makes the call succeed with one more request, the
    // list URL built with that ticket, whose body is the answer
    ensures CheckServiceName(servicename) == Pass && CheckFormat(format) == Pass ==>
      var t := TicketStep(cache, creds, fetch, servicename);
      && (t.result.Failure? ==> st == Step(Failure(t.result.error), cache, t.sent))
      && (t.result.Success? ==>
            var url := ListUrl(servicename, format, creds.apiKey, t.result.value);
            && url.Some?
            && st == Step(Success(Respond(format, asDict, fetch(url.value))), t.cache, t.sent + [url.value]))
  {
    if CheckServiceName(servicename).Fail? then
      Step(Failure(NotServiceName(servicename)), cache, [])
    else if CheckFormat(format).Fail? then
      Step(Failure(NotFormat(format)), cache, [])
    else
      var t := TicketStep(cache, creds, fetch, servicename);
      if t.result.Failure? then
        Step(Failure(t.result.error), t.cache, t.sent)
      else
        KnownNameBranches(servicename);
        var url := ListUrl(servicename, format, creds.apiKey, t.result.value).value;
        Step(Success(Respond(format, asDict, fetch(url))), t.cache, t.sent + [url])
  }

  /** A failed `get_list` changes nothing and has requested at most the
      login URL. */
  lemma ListStepFailure(cache: Cache, creds: Credentials, fetch: string -> string,
                        servicename: string, format: string, asDict: bool)
    requires KnownKeys(cache)
    requires ListStep(cache, creds, fetch, servicename, format, asDict).result.Failure?
    ensures var st := ListStep(cache, creds, fetch, servicename, format, asDict);
      && st.cache == cache
      && (st.sent == [] || st.sent == [LoginUrl(servicename, creds.username, creds.password)])
  {
  }

  /** A successful `get_list` last requested the list template of the
      service, filled with the format, the API key and the ticket now cached,
      and answers the body of that request. */
  lemma ListStepSuccess(cache: Cache, creds: Credentials, fetch: string -> string,
                        servicename: string, format: string, asDict: bool)
    requires KnownKeys(cache)
    requires ListStep(cache, creds, fetch, servicename, format, asDict).result.Success?
    ensures var st := ListStep(cache, creds, fetch, servicename, format, asDict);
      && CheckServiceName(servicename) == Pass
      && st.cache[servicename].Some?
      && |st.sent| >= 1
      && Interpolate(ListTemplate(Branch(servicename).value),
                     [format, creds.apiKey, st.cache[servicename].value]) == Some(st.sent[|st.sent| - 1])
      && st.result.value == Respond(format, asDict, fetch(st.sent[|st.sent| - 1]))
      && st.result.value != NoReply
  {
    var st := ListStep(cache, creds, fetch, servicename, format, asDict);
    var t := TicketStep(cache, creds, fetch, servicename);
    ListStepPastChecks(cache, creds, fetch, servicename, format, asDict);
    var url := ListUrl(servicename, format, creds.apiKey, t.result.value);
    assert st.sent[|st.sent| - 1] == url.value;
    assert st.cache[servicename] == Some(t.result.value);
  }

  /** A `get_list` that succeeds passed its checks and obtained a ticket. */
  lemma ListStepPastChecks(cache: Cache, creds: Credentials, fetch: string -> string,
                           servicename: string, format: string, asDict: bool)
    requires KnownKeys(cache)
    requires ListStep(cache, creds, fetch, servicename, format, asDict).result.Success?
    ensures CheckServiceName(servicename) == Pass && CheckFormat(format) == Pass
    ensures TicketStep(cache, creds, fetch, servicename).result.Success?
  {
  }

  /** `get_content(access, servicename, id, format="json", dict=False)`. */
  function ContentStep(cache: Cache, creds: Credentials, fetch: string -> string,
                       access: string, servicename: string, id: string,
                       format: string := "json", asDict: bool := false): (st: Step<Reply>)
    requires KnownKeys(cache)
    ensures KnownKeys(st.cache)
    // the arguments are checked, in this order, before any request
    ensures CheckServiceName(servicename).Fail? ==>
      st == Step(Failure(NotServiceName(servicename)), cache, [])
    ensures CheckServiceName(servicename) == Pass && CheckFormat(format).Fail? ==>
      st == Step(Failure(NotFormat(format)), cache, [])
    ensures CheckServiceName(servicename) == Pass && CheckFormat(format) == Pass
            && CheckAccess(access).Fail? ==>
      st == Step(Failure(NotAccess(access)), cache, [])
    // past the checks: the exception of `get_ticket` reaches the caller as it
    // is; a ticket obtained makes the call succeed with one more request, the
    // content URL built with that ticket, whose body is the answer
    ensures CheckServiceName(servicename) == Pass && CheckFormat(format) == Pass
            && CheckAccess(access) == Pass ==>
      var t := TicketStep(cache, creds, fetch, servicename);
      && (t.result.Failure? ==> st == Step(Failure(t.result.error), cache, t.sent))
      && (t.result.Success? ==>
            var url := ContentUrl(servicename, access, format, id, creds.apiKey, t.result.value);
            && url.Some?
            && st == Step(Success(Respond(format, asDict, fetch(url.value))), t.cache, t.sent + [url.value]))
  {
    if CheckServiceName(servicename).Fail? then
      Step(Failure(NotServiceName(servicename)), cache, [])
    else if CheckFormat(format).Fail? then
      Step(Failure(NotFormat(format)), cache, [])
    else if CheckAccess(access).Fail? then
      Step(Failure(NotAccess(access)), cache, [])
    else
      var t := TicketStep(cache, creds, fetch, servicename);
      if t.result.Failure? then
        Step(Failure(t.result.error), t.cache, t.sent)
      else
        KnownNameBranches(servicename);
        var url := ContentUrl(servicename, access, format, id, creds.apiKey, t.result.value).value;
        Step(Success(Respond(format, asDict, fetch(url))), t.cache, t.sent + [url])
  }

  /** A failed `get_content` changes nothing and has requested at most the
      login URL. */
  lemma ContentStepFailure(cache: Cache, creds: Credentials, fetch: string -> string,
                           access: string, servicename: string, id: string,
                           format: string, asDict: bool)
    requires KnownKeys(cache)
    requires ContentStep(cache, creds, fetch, access, servicename, id, format, asDict).result.Failure?
    ensures var st := ContentStep(cache, creds, fetch, access, servicename, id, format, asDict);
      && st.cache == cache
      && (st.sent == [] || st.sent == [LoginUrl(servicename, creds.username, creds.password)])
  {
  }

  /** A successful `get_content` last requested the content template of the
      service, filled with access, format, id, API key and the ticket now
      cached, and answers the body of that request. */
  lemma ContentStepSuccess(cache: Cache, creds: Credentials, fetch: string -> string,
                           access: string, servicename: string, id: string,
                           format: string, asDict: bool)
    requires KnownKeys(cache)
    requires ContentStep(cache, creds, fetch, access, servicename, id, format, asDict).result.Success?
    ensures var st := ContentStep(cache, creds, fetch, access, servicename, id, format, asDict);
      && CheckServiceName(servicename) == Pass
      && st.cache[servicename].Some?
      && |st.sent| >= 1
      && Interpolate(ContentTemplate(Branch(servicename).value),
                     [access, format, id, creds.apiKey, st.cache[servicename].value])
         == Some(st.sent[|st.sent| - 1])
      && st.result.value == Respond(format, asDict, fetch(st.sent[|st.sent| - 1]))
      && st.result.value != NoReply
  {
    var st := ContentStep(cache, creds, fetch, access, servicename, id, format, asDict);
    var t := TicketStep(cache, creds, fetch, servicename);
    ContentStepPastChecks(cache, creds, fetch, access, servicename, id, format, asDict);
    var url := ContentUrl(servicename, access, format, id, creds.apiKey, t.result.value);
    assert st.sent[|st.sent| - 1] == url.value;
    assert st.cache[servicename] == Some(t.result.value);
  }

  /** A `get_content` that succeeds passed its checks and obtained a ticket. */
  lemma ContentStepPastChecks(cache: Cache, creds: Credentials, fetch: string -> string,
                              access: string, servicename: string, id: string,
                              format: string, asDict: bool)
    requires KnownKeys(cache)
    requires ContentStep(cache, creds, fetch, access, servicename, id, format, asDict).result.Success?
    ensures CheckServiceName(servicename) == Pass && CheckFormat(format) == Pass && CheckAccess(access) == Pass
    ensures TicketStep(cache, creds, fetch, servicename).result.Success?
  {
  }

  // ---------------------------------------------------------------------
  // The client object

  class Client {
    const username: string
    const password: string
    const apiKey: string
    /** Service name to cached ticket; `None` until the first login. */
    var ticket: Cache

    ghost predicate Valid()
      reads this
    {
      KnownKeys(ticket)
    }

    function Creds(): Credentials
    {
      Credentials(username, password, apiKey)
    }

    constructor (username: string, password: string, apiKey: string)
      ensures Valid()
      ensures this.username == username && this.password == password && this.apiKey == apiKey
      ensures ticket == EmptyCache
    {
      this.username := username;
      this.password := password;
      this.apiKey := apiKey;
      ticket := EmptyCache;
    }

    /** `get_ticket(servicename)`. */
    method GetTicket(fetch: string -> string, servicename: string)
      returns (r: Result<string>, sent: seq<string>)
      requires Valid()
      modifies this
      ensures Valid()
      ensures Step(r, ticket, sent) == TicketStep(old(ticket), Creds(), fetch, servicename)
    {
      var check := CheckServiceName(servicename);
      if check.Fail? {
        return Failure(check.error), [];
      }
      if Truthy(ticket[servicename]) {
        return Success(ticket[servicename].value), [];
      }
      var url := LoginUrl(servicename, username, password);
      var data := fetch(url);
      sent := [url];
      r := ParseLogin(data);
      if r.Success? {
        ticket := ticket[servicename := Some(r.value)];
      }
    }

    /** `get_list(servicename, format="json", dict=False)`. */
    method GetList(fetch: string -> string, servicename: string, format: string := "json",
                   asDict: bool := false)
      returns (r: Result<Reply>, sent: seq<string>)
      requires Valid()
      modifies this
      ensures Valid()
      ensures Step(r, ticket, sent) == ListStep(old(ticket), Creds(), fetch, servicename, format, asDict)
    {
      var check := CheckServiceName(servicename);
      if check.Fail? {
        return Failure(check.error), [];
      }
      check := CheckFormat(format);
      if check.Fail? {
        return Failure(check.error), [];
      }
      var t;
      t, sent := GetTicket(fetch, servicename);
      if t.Failure? {
        return Failure(t.error), sent;
      }
      KnownNameBranches(servicename);
      var url := ListUrl(servicename, format, apiKey, t.value).value;
      var data := fetch(url);
      sent := sent + [url];
      r := Success(Respond(format, asDict, data));
    }

    /** `get_content(access, servicename, id, format="json", dict=False)`. */
    method GetContent(fetch: string -> string, access: string, servicename: string, id: string,
                      format: string := "json", asDict: bool := false)
      returns (r: Result<Reply>, sent: seq<string>)
      requires Valid()
      modifies this
      ensures Valid()
      ensures Step(r, ticket, sent) ==
        ContentStep(old(ticket), Creds(), fetch, access, servicename, id, format, asDict)
    {
      var check := CheckServiceName(servicename);
      if check.Fail? {
        return Failure(check.error), [];
      }
      check := CheckFormat(format);
      if check.Fail? {
        return Failure(check.error), [];
      }
      check := CheckAccess(access);
      if check.Fail? {
        return Failure(check.error), [];
      }
      var t;
      t, sent := GetTicket(fetch, servicename);
      if t.Failure? {
        return Failure(t.error), sent;
      }
      KnownNameBranches(servicename);
      var url := ContentUrl(servicename, access, format, id, apiKey, t.value).value;
      var data := fetch(url);
      sent := sent + [url];
      r := Success(Respond(format, asDict, data));
    }
  }
}
