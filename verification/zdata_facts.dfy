/** What the `zdata` client promises, stated over the model: the quirks of
    its argument checks, what the login parser extracts, the exact request
    URLs, and how the ticket cache evolves over calls. */
module ZDataFacts {
  import opened PyText
  import opened ZData

  // ---------------------------------------------------------------------
  // Argument checks

  /** `__check_format` given any of the three service names rejects every
      format: the export lists and the response formats have nothing in
      common, and both are required. */
  lemma FormatRejectedForEveryService(s: Service, format: string)
    ensures CheckFormat(format, Some(Name(s))) == Fail(NotFormat(format))
  {
    BranchOfName(s);
  }

  /** Branches are picked by substring containment: a part of a service name
      picks the first service containing it, and other text picks none. */
  lemma PrefixPicksWriter()
    ensures Branch("Zoho") == Some(Writer)
  {
    assert OccursAt("ZohoWriter", "Zoho", 0);
  }

  lemma PartPicksSheet()
    ensures Branch("Sheet") == Some(Sheet)
  {
    Absent("ZohoWriter", "Sheet", 0);
    assert OccursAt("ZohoSheet", "Sheet", 4);
  }

  lemma PartPicksShow()
    ensures Branch("Show") == Some(Show)
  {
    Absent("ZohoWriter", "Show", 0);
    Absent("ZohoSheet", "Show", 3);
    assert OccursAt("ZohoShow", "Show", 4);
  }

  lemma OtherTextPicksNone()
    ensures Branch("ZohoDocs") == None
  {
    Absent("ZohoWriter", "ZohoDocs", 4);
    Absent("ZohoSheet", "ZohoDocs", 4);
    Absent("ZohoShow", "ZohoDocs", 4);
  }

  /** So a service text that picks no branch, or the empty text (which is
      falsy although it is part of every name), leaves only the response
      format check. */
  lemma FormatCheckSkipsExports(format: string)
    ensures CheckFormat(format, Some("ZohoDocs")) == CheckFormat(format, None)
    ensures CheckFormat(format, Some("")) == CheckFormat(format, None)
  {
    OtherTextPicksNone();
  }

  // ---------------------------------------------------------------------
  // The login response

  /** The login fails with a cause exactly when the first `RESULT=` line
      reads "FALSE" and there is a `CAUSE=` field; the cause is the rest of
      its line. */
  lemma LoginFailsExactly(data: string, cause: string)
    ensures ParseLogin(data) == Failure(LoginFailed(cause)) <==>
      IsFirstCapture(data, "RESULT=", "FALSE") && IsFirstCapture(data, "CAUSE=", cause)
  {
    FirstCaptureExact(data, "RESULT=", "FALSE");
    FirstCaptureExact(data, "CAUSE=", cause);
  }

  /** The login yields a ticket exactly when the first `RESULT=` line reads
      anything but "FALSE" and there is a `TICKET=` field; the ticket is the
      rest of its line. */
  lemma LoginSucceedsExactly(data: string, ticket: string)
    ensures ParseLogin(data) == Success(ticket) <==>
      && (exists v :: IsFirstCapture(data, "RESULT=", v) && v != "FALSE")
      && IsFirstCapture(data, "TICKET=", ticket)
  {
    FirstCaptureExact(data, "TICKET=", ticket);
    if exists v :: IsFirstCapture(data, "RESULT=", v) && v != "FALSE" {
      var v :| IsFirstCapture(data, "RESULT=", v) && v != "FALSE";
      FirstCaptureExact(data, "RESULT=", v);
    }
  }

  lemma RefusalResult(cause: string)
    ensures FirstCapture("RESULT=FALSE\nCAUSE=" + cause, "RESULT=") == Some("FALSE")
  {
    var pre := "RESULT=FALSE\nCAUSE=";
    var s := pre + cause;
    assert s[0..7] == pre[0..7] == "RESULT=";
    assert s[7..12] == pre[7..12] == "FALSE";
    assert s[12] == '\n';
    CaptureAt(s, "RESULT=", 0, "FALSE");
  }

  lemma RefusalCause(cause: string)
    requires '\n' !in cause
    ensures FirstCapture("RESULT=FALSE\nCAUSE=" + cause, "CAUSE=") == Some(cause)
  {
    var pre := "RESULT=FALSE\nCAUSE=";
    var s := pre + cause;
    assert s[13..19] == pre[13..19] == "CAUSE=";
    assert s[0..13] == pre[0..13];
    NoOccurrenceBefore(s, "CAUSE=", 13, 0);
    assert s[19..19 + |cause|] == cause;
    CaptureAt(s, "CAUSE=", 13, cause);
  }

  /** A refusal: the cause is returned up to the end of its line. */
  lemma LoginRefused(cause: string)
    requires '\n' !in cause
    ensures ParseLogin("RESULT=FALSE\nCAUSE=" + cause) == Failure(LoginFailed(cause))
  {
    RefusalResult(cause);
    RefusalCause(cause);
  }

  lemma GrantResult(ticket: string)
    ensures FirstCapture("RESULT=TRUE\nTICKET=" + ticket, "RESULT=") == Some("TRUE")
  {
    var pre := "RESULT=TRUE\nTICKET=";
    var s := pre + ticket;
    assert s[0..7] == pre[0..7] == "RESULT=";
    assert s[7..11] == pre[7..11] == "TRUE";
    assert s[11] == '\n';
    CaptureAt(s, "RESULT=", 0, "TRUE");
  }

  lemma GrantTicket(ticket: string)
    requires '\n' !in ticket
    ensures FirstCapture("RESULT=TRUE\nTICKET=" + ticket, "TICKET=") == Some(ticket)
  {
    var pre := "RESULT=TRUE\nTICKET=";
    var s := pre + ticket;
    assert s[12..19] == pre[12..19] == "TICKET=";
    assert s[1..13] == pre[1..13];
    NoOccurrenceBefore(s, "TICKET=", 12, 1);
    assert s[19..19 + |ticket|] == ticket;
    CaptureAt(s, "TICKET=", 12, ticket);
  }

  /** An acceptance: the ticket is returned up to the end of its line. */
  lemma LoginGranted(ticket: string)
    requires '\n' !in ticket
    ensures ParseLogin("RESULT=TRUE\nTICKET=" + ticket) == Success(ticket)
  {
    GrantResult(ticket);
    GrantTicket(ticket);
  }

  // ---------------------------------------------------------------------
  // Request URLs

  /** The list URL of a service: its template's text with format, API key
      and ticket in that order. */
  lemma ListUrlSpelled(servicename: string, format: string, apikey: string, ticket: string)
    requires Branch(servicename).Some?
    ensures ListUrl(servicename, format, apikey, ticket) ==
      var p := ListPieces(Branch(servicename).value);
      Some(p[0] + format + (p[1] + apikey + (p[2] + ticket + p[3])))
  {
    var s := Branch(servicename).value;
    ListPiecesClean(s);
    FillThree(ListPieces(s), format, apikey, ticket);
  }

  /** The content URL of a service: its template's text with access,
      format, document id, API key and ticket in that order. */
  lemma ContentUrlSpelled(servicename: string, access: string, format: string, id: string,
                          apikey: string, ticket: string)
    requires Branch(servicename).Some?
    ensures ContentUrl(servicename, access, format, id, apikey, ticket) ==
      var p := ContentPieces(Branch(servicename).value);
      Some(p[0] + access + (p[1] + format + (p[2] + id + (p[3] + apikey + (p[4] + ticket + p[5])))))
  {
    var s := Branch(servicename).value;
    ContentPiecesClean(s);
    FillFive(ContentPieces(s), access, format, id, apikey, ticket);
  }

  lemma WriterContentText()
    ensures "https://export.writer.zoho.com/api/" + "private"
            + ("/" + "pdf" + ("/content/" + "42" + ("?apikey=" + "K" + ("&ticket=" + "T" + ""))))
         == "https://export.writer.zoho.com/api/private/pdf/content/42?apikey=K&ticket=T"
  {
  }

  /** A document of Writer, exported as pdf from the private area. */
  lemma WriterContentExample()
    ensures ContentUrl("ZohoWriter", "private", "pdf", "42", "K", "T") ==
      Some("https://export.writer.zoho.com/api/private/pdf/content/42?apikey=K&ticket=T")
  {
    BranchOfName(Writer);
    ContentUrlSpelled("ZohoWriter", "private", "pdf", "42", "K", "T");
    WriterContentText();
  }

  lemma ShowListText()
    ensures "http://show.zoho.com/api/private/" + "json"
            + ("/presentations?apikey=" + "K" + ("&ticket=" + "T" + ""))
         == "http://show.zoho.com/api/private/json/presentations?apikey=K&ticket=T"
  {
  }

  /** The Show document list is requested over plain `http`. */
  lemma ShowListExample()
    ensures ListUrl("ZohoShow", "json", "K", "T") ==
      Some("http://show.zoho.com/api/private/json/presentations?apikey=K&ticket=T")
  {
    BranchOfName(Show);
    ListUrlSpelled("ZohoShow", "json", "K", "T");
    ShowListText();
  }

  // ---------------------------------------------------------------------
  // The ticket cache

  /** After a login that returned a non-empty ticket, asking again for the
      same service answers that ticket without any request, whatever the
      network would now say. */
  lemma SecondTicketIsCached(cache: Cache, creds: Credentials, fetch: string -> string,
                             later: string -> string, servicename: string)
    requires KnownKeys(cache)
    requires TicketStep(cache, creds, fetch, servicename).result.Success?
    requires TicketStep(cache, creds, fetch, servicename).result.value != ""
    ensures
      var first := TicketStep(cache, creds, fetch, servicename);
      TicketStep(first.cache, creds, later, servicename) == Step(first.result, first.cache, [])
  {
  }

  /** An empty ticket is stored but counts as a miss: the next call logs in
      again. */
  lemma EmptyTicketLogsInAgain(cache: Cache, creds: Credentials, fetch: string -> string,
                               later: string -> string, servicename: string)
    requires KnownKeys(cache)
    requires TicketStep(cache, creds, fetch, servicename).result == Success("")
    ensures TicketStep(cache, creds, fetch, servicename).cache[servicename] == Some("")
    ensures TicketStep(TicketStep(cache, creds, fetch, servicename).cache, creds, later, servicename).sent ==
      [LoginUrl(servicename, creds.username, creds.password)]
  {
  }

  /** A call touches only the entry of its own service, and never replaces a
      ticket that is already cached. */
  lemma TicketStepFrame(cache: Cache, creds: Credentials, fetch: string -> string,
                        servicename: string, other: string)
    requires KnownKeys(cache) && other in cache
    ensures var st := TicketStep(cache, creds, fetch, servicename);
      && (other != servicename ==> st.cache[other] == cache[other])
      && (Truthy(cache[other]) ==> st.cache[other] == cache[other])
  {
  }

  /** Operations the client offers, as a caller issues them, with the
      defaults of `get_list` and `get_content`. */
  datatype Call =
    | GetTicket(servicename: string)
    | GetList(servicename: string, format: string := "json", asDict: bool := false)
    | GetContent(access: string, servicename: string, id: string, format: string := "json",
                 asDict: bool := false)

  function Perform(cache: Cache, creds: Credentials, fetch: string -> string, call: Call): (st: Step<Reply>)
    requires KnownKeys(cache)
    ensures KnownKeys(st.cache)
  {
    match call
    case GetTicket(n) =>
      var t := TicketStep(cache, creds, fetch, n);
      Step(if t.result.Success? then Success(Raw(t.result.value)) else Failure(t.result.error), t.cache, t.sent)
    case GetList(n, f, d) => ListStep(cache, creds, fetch, n, f, d)
    case GetContent(a, n, i, f, d) => ContentStep(cache, creds, fetch, a, n, i, f, d)
  }

  /** The cache after a sequence of calls, and every URL they requested. The
      network may answer differently over time: `fetches[k]` is how it
      answers during the `k`-th call. */
  function Run(cache: Cache, creds: Credentials, fetches: seq<string -> string>, calls: seq<Call>)
    : (r: (Cache, seq<string>))
    requires KnownKeys(cache) && |fetches| == |calls|
    ensures KnownKeys(r.0)
    decreases |calls|
  {
    if calls == [] then (cache, [])
    else
      var st := Perform(cache, creds, fetches[0], calls[0]);
      var rest := Run(st.cache, creds, fetches[1..], calls[1..]);
      (rest.0, st.sent + rest.1)
  }

  /** A refused login followed by a granted one: the first `get_ticket`
      fails and caches nothing, the second caches the ticket it is given;
      both request the login URL. */
  lemma RetryAfterRefusal(creds: Credentials, refuse: string -> string, grant: string -> string,
                          cause: string, ticket: string)
    requires '\n' !in cause && '\n' !in ticket
    requires forall url :: refuse(url) == "RESULT=FALSE\nCAUSE=" + cause
    requires forall url :: grant(url) == "RESULT=TRUE\nTICKET=" + ticket
    ensures var login := LoginUrl("ZohoWriter", creds.username, creds.password);
            Run(EmptyCache, creds, [refuse, grant], [GetTicket("ZohoWriter"), GetTicket("ZohoWriter")])
            == (EmptyCache["ZohoWriter" := Some(ticket)], [login, login])
  {
    var login := LoginUrl("ZohoWriter", creds.username, creds.password);
    var call := GetTicket("ZohoWriter");
    RefusedCachesNothing(creds, refuse, cause);
    var first := Perform(EmptyCache, creds, refuse, call);
    assert first.cache == EmptyCache && first.sent == [login];
    var second := GrantedIsCached(creds, grant, ticket);
    assert second == Perform(first.cache, creds, grant, call);
    RunTwo(EmptyCache, creds, refuse, grant, call, call);
    assert first.sent + second.sent == [login, login];
  }

  /** Two calls in a row, the second on the cache the first leaves. */
  lemma RunTwo(cache: Cache, creds: Credentials, f: string -> string, g: string -> string,
               c: Call, d: Call)
    requires KnownKeys(cache)
    ensures var first := Perform(cache, creds, f, c);
            var second := Perform(first.cache, creds, g, d);
            Run(cache, creds, [f, g], [c, d]) == (second.cache, first.sent + second.sent)
  {
    var first := Perform(cache, creds, f, c);
    var second := Perform(first.cache, creds, g, d);
    assert [f, g][1..] == [g] && [c, d][1..] == [d];
    assert [g][1..] == [] && [d][1..] == [];
    assert Run(second.cache, creds, [], []) == (second.cache, []);
    assert second.sent + [] == second.sent;
  }

  lemma RefusedCachesNothing(creds: Credentials, refuse: string -> string, cause: string)
    requires '\n' !in cause
    requires forall url :: refuse(url) == "RESULT=FALSE\nCAUSE=" + cause
    ensures Perform(EmptyCache, creds, refuse, GetTicket("ZohoWriter"))
            == Step(Failure(LoginFailed(cause)), EmptyCache, [LoginUrl("ZohoWriter", creds.username, creds.password)])
  {
    LoginRefused(cause);
  }

  lemma GrantedIsCached(creds: Credentials, grant: string -> string, ticket: string)
    returns (st: Step<Reply>)
    requires '\n' !in ticket
    requires forall url :: grant(url) == "RESULT=TRUE\nTICKET=" + ticket
    ensures st == Perform(EmptyCache, creds, grant, GetTicket("ZohoWriter"))
    ensures st == Step(Success(Raw(ticket)), EmptyCache["ZohoWriter" := Some(ticket)],
                       [LoginUrl("ZohoWriter", creds.username, creds.password)])
  {
    LoginGranted(ticket);
    st := Perform(EmptyCache, creds, grant, GetTicket("ZohoWriter"));
  }

  /** One call never replaces a cached ticket, and only the entry of the
      service it names can change. */
  lemma PerformKeepsCached(cache: Cache, creds: Credentials, fetch: string -> string, call: Call,
                           name: string)
    requires KnownKeys(cache) && name in cache
    ensures Truthy(cache[name]) ==> Perform(cache, creds, fetch, call).cache[name] == cache[name]
    ensures name != call.servicename ==> Perform(cache, creds, fetch, call).cache[name] == cache[name]
  {
    var st := Perform(cache, creds, fetch, call);
    var t := TicketStep(cache, creds, fetch, call.servicename);
    assert st.cache == cache || st.cache == t.cache;
  }

  /** Once a service holds a ticket, no sequence of calls changes it: each
      service goes from no ticket to cached at most once. */
  lemma {:induction false} RunKeepsCached(cache: Cache, creds: Credentials, fetches: seq<string -> string>,
                                          calls: seq<Call>, name: string)
    requires KnownKeys(cache) && |fetches| == |calls| && name in cache && Truthy(cache[name])
    ensures Run(cache, creds, fetches, calls).0[name] == cache[name]
    decreases |calls|
  {
    if calls != [] {
      var st := Perform(cache, creds, fetches[0], calls[0]);
      PerformKeepsCached(cache, creds, fetches[0], calls[0], name);
      RunKeepsCached(st.cache, creds, fetches[1..], calls[1..], name);
    }
  }

  /** Calls that never name a service leave its entry as it was. */
  lemma {:induction false} RunOtherServices(cache: Cache, creds: Credentials, fetches: seq<string -> string>,
                                            calls: seq<Call>, name: string)
    requires KnownKeys(cache) && |fetches| == |calls| && name in cache
    requires forall k :: 0 <= k < |calls| ==> calls[k].servicename != name
    ensures Run(cache, creds, fetches, calls).0[name] == cache[name]
    decreases |calls|
  {
    if calls != [] {
      var st := Perform(cache, creds, fetches[0], calls[0]);
      PerformKeepsCached(cache, creds, fetches[0], calls[0], name);
      assert forall k :: 0 <= k < |calls[1..]| ==> calls[1..][k] == calls[k + 1];
      RunOtherServices(st.cache, creds, fetches[1..], calls[1..], name);
    }
  }

  // ---------------------------------------------------------------------
  // No second login

  /** The login URL carries the service name right after its fixed prefix,
      and its ninth character is the `a` of `accounts`. */
  lemma LoginUrlStart(n: string, username: string, password: string)
    ensures var url := LoginUrl(n, username, password);
            var k := |TicketPieces()[0]|;
            && k + |n| <= |url| && url[k..k + |n|] == n && |url| > 8 && url[8] == 'a'
  {
    var p := TicketPieces();
    FillThree(p, n, username, password);
    assert p[0][8] == 'a';
  }

  /** Strings that hold different characters at the same index differ. */
  lemma DifferAt(u: string, v: string, i: nat)
    requires i < |u| && i < |v| && u[i] != v[i]
    ensures u != v
  {
  }

  /** Two services never share a login URL: their names differ at the
      fifth or the seventh character. */
  lemma LoginUrlsDiffer(s: Service, t: Service, username: string, password: string)
    requires s != t
    ensures LoginUrl(Name(s), username, password) != LoginUrl(Name(t), username, password)
  {
    var a, b := Name(s), Name(t);
    var j := if s == Writer || t == Writer then 4 else 6;
    assert j < |a| && j < |b| && a[j] != b[j];
    var u, v := LoginUrl(a, username, password), LoginUrl(b, username, password);
    var k := |TicketPieces()[0]|;
    LoginUrlStart(a, username, password);
    LoginUrlStart(b, username, password);
    assert u[k + j] == u[k..k + |a|][j] == a[j];
    assert v[k + j] == v[k..k + |b|][j] == b[j];
    DifferAt(u, v, k + j);
  }

  /** The ninth character of a list or content template is not `a`. */
  lemma ListHostStart(s: Service)
    ensures |ListPieces(s)[0]| > 8 && ListPieces(s)[0][8] != 'a'
  {
    match s {
      case Writer => assert ListPieces(s)[0][8] == 'e';
      case Sheet => assert ListPieces(s)[0][8] == 's';
      case Show => assert ListPieces(s)[0][8] == 'h';
    }
  }

  lemma ContentHostStart(s: Service)
    ensures |ContentPieces(s)[0]| > 8 && ContentPieces(s)[0][8] != 'a'
  {
    match s {
      case Writer => assert ContentPieces(s)[0][8] == 'e';
      case Sheet => assert ContentPieces(s)[0][8] == 's';
      case Show => assert ContentPieces(s)[0][8] == 's';
    }
  }

  /** No list URL is a login URL. */
  lemma ListUrlIsNoLogin(servicename: string, format: string, apikey: string, ticket: string,
                         n: string, username: string, password: string)
    requires ListUrl(servicename, format, apikey, ticket).Some?
    ensures ListUrl(servicename, format, apikey, ticket).value != LoginUrl(n, username, password)
  {
    var s := Branch(servicename).value;
    var p := ListPieces(s);
    ListUrlSpelled(servicename, format, apikey, ticket);
    var url := ListUrl(servicename, format, apikey, ticket).value;
    assert url == p[0] + format + (p[1] + apikey + (p[2] + ticket + p[3]));
    ListHostStart(s);
    assert url[8] == p[0][8];
    LoginUrlStart(n, username, password);
    DifferAt(url, LoginUrl(n, username, password), 8);
  }

  /** No content URL is a login URL. */
  lemma ContentUrlIsNoLogin(servicename: string, access: string, format: string, id: string,
                            apikey: string, ticket: string, n: string, username: string, password: string)
    requires ContentUrl(servicename, access, format, id, apikey, ticket).Some?
    ensures ContentUrl(servicename, access, format, id, apikey, ticket).value != LoginUrl(n, username, password)
  {
    var s := Branch(servicename).value;
    var p := ContentPieces(s);
    ContentUrlSpelled(servicename, access, format, id, apikey, ticket);
    var url := ContentUrl(servicename, access, format, id, apikey, ticket).value;
    assert url == p[0] + access + (p[1] + format + (p[2] + id + (p[3] + apikey + (p[4] + ticket + p[5]))));
    ContentHostStart(s);
    assert url[8] == p[0][8];
    LoginUrlStart(n, username, password);
    DifferAt(url, LoginUrl(n, username, password), 8);
  }

  /** The name of a known cache entry is the name of a service. */
  lemma KnownName(name: string) returns (s: Service)
    requires name in {"ZohoWriter", "ZohoSheet", "ZohoShow"}
    ensures Name(s) == name
  {
    s := if name == "ZohoWriter" then Writer else if name == "ZohoSheet" then Sheet else Show;
  }

  /** `get_ticket` for a service whose ticket is cached logs in for no
      service but the one it names. */
  lemma TicketStepNoLoginFor(cache: Cache, creds: Credentials, fetch: string -> string,
                             servicename: string, name: string)
    requires KnownKeys(cache) && name in cache && Truthy(cache[name])
    ensures LoginUrl(name, creds.username, creds.password) !in TicketStep(cache, creds, fetch, servicename).sent
  {
    var t := TicketStep(cache, creds, fetch, servicename);
    if t.sent != [] {
      var s := KnownName(servicename);
      var m := KnownName(name);
      LoginUrlsDiffer(s, m, creds.username, creds.password);
    }
  }

  /** `get_list` never logs in for a service whose ticket is cached. */
  lemma ListStepNoLoginFor(cache: Cache, creds: Credentials, fetch: string -> string,
                           servicename: string, format: string, asDict: bool, name: string)
    requires KnownKeys(cache) && name in cache && Truthy(cache[name])
    ensures LoginUrl(name, creds.username, creds.password)
            !in ListStep(cache, creds, fetch, servicename, format, asDict).sent
  {
    var st := ListStep(cache, creds, fetch, servicename, format, asDict);
    var t := TicketStep(cache, creds, fetch, servicename);
    TicketStepNoLoginFor(cache, creds, fetch, servicename, name);
    if CheckServiceName(servicename).Fail? || CheckFormat(format).Fail? {
      assert st.sent == [];
    } else if t.result.Failure? {
      assert st.sent == t.sent;
    } else {
      var url := ListUrl(servicename, format, creds.apiKey, t.result.value);
      assert st.sent == t.sent + [url.value];
      ListUrlIsNoLogin(servicename, format, creds.apiKey, t.result.value, name, creds.username, creds.password);
    }
  }

  /** `get_content` never logs in for a service whose ticket is cached. */
  lemma ContentStepNoLoginFor(cache: Cache, creds: Credentials, fetch: string -> string,
                              access: string, servicename: string, id: string, format: string,
                              asDict: bool, name: string)
    requires KnownKeys(cache) && name in cache && Truthy(cache[name])
    ensures LoginUrl(name, creds.username, creds.password)
            !in ContentStep(cache, creds, fetch, access, servicename, id, format, asDict).sent
  {
    var st := ContentStep(cache, creds, fetch, access, servicename, id, format, asDict);
    var t := TicketStep(cache, creds, fetch, servicename);
    TicketStepNoLoginFor(cache, creds, fetch, servicename, name);
    if CheckServiceName(servicename).Fail? || CheckFormat(format).Fail? || CheckAccess(access).Fail? {
      assert st.sent == [];
    } else if t.result.Failure? {
      assert st.sent == t.sent;
    } else {
      var url := ContentUrl(servicename, access, format, id, creds.apiKey, t.result.value);
      assert st.sent == t.sent + [url.value];
      ContentUrlIsNoLogin(servicename, access, format, id, creds.apiKey, t.result.value,
                          name, creds.username, creds.password);
    }
  }

  /** A call never logs in for a service whose ticket is cached. */
  lemma PerformNoLoginFor(cache: Cache, creds: Credentials, fetch: string -> string, call: Call,
                          name: string)
    requires KnownKeys(cache) && name in cache && Truthy(cache[name])
    ensures LoginUrl(name, creds.username, creds.password) !in Perform(cache, creds, fetch, call).sent
  {
    match call {
      case GetTicket(n) => TicketStepNoLoginFor(cache, creds, fetch, n, name);
      case GetList(n, f, d) => ListStepNoLoginFor(cache, creds, fetch, n, f, d, name);
      case GetContent(a, n, i, f, d) => ContentStepNoLoginFor(cache, creds, fetch, a, n, i, f, d, name);
    }
  }

  /** Once a service holds a ticket, no sequence of calls requests its login
      URL again, whatever the network answers. */
  lemma {:induction false} RunNeverLogsInAgain(cache: Cache, creds: Credentials,
                                               fetches: seq<string -> string>, calls: seq<Call>,
                                               name: string)
    requires KnownKeys(cache) && |fetches| == |calls| && name in cache && Truthy(cache[name])
    ensures LoginUrl(name, creds.username, creds.password) !in Run(cache, creds, fetches, calls).1
    decreases |calls|
  {
    if calls != [] {
      var st := Perform(cache, creds, fetches[0], calls[0]);
      PerformNoLoginFor(cache, creds, fetches[0], calls[0], name);
      PerformKeepsCached(cache, creds, fetches[0], calls[0], name);
      RunNeverLogsInAgain(st.cache, creds, fetches[1..], calls[1..], name);
    }
  }
}
