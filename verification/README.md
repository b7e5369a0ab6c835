# zdata — a verified model of the Zoho document API client

`zdata` is a small Python client for the Zoho Writer, Sheet and Show
document APIs. A `zdata` object holds a user name, a password, an API key
and one cached login ticket per service. Before each operation it checks
its arguments against fixed lists. It logs in for a service only while no
non-empty ticket is cached for it, and keeps the ticket the server returns.
A refused login, or one that returns an empty ticket, is tried again on the
next call. It then builds the request URL of the document list or of one
document's content.

This project models that core in Dafny and proves what it promises:

- `pytext.dfy` (module `PyText`) models the three pieces of Python string
  behaviour the client relies on:
  - `needle in haystack` as substring containment;
  - `re.findall("(?:KEY)(.*)", s)[0]` as "the rest of the line after the
    first occurrence of KEY";
  - `template % args` with `%s` holes.
- `zdata.dfy` (module `ZData`) models:
  - the three argument checks;
  - the branch chosen by `servicename in "Zoho..."`;
  - the URL templates and the URLs built from them;
  - the login-response parser;
  - `get_ticket`, `get_list` and `get_content`, both as functions of the
    ticket cache and as methods of the class `Client`, whose `ticket` map
    field they update in place; `format="json"` and `dict=False` are default
    arguments there as in the source.
- `zdata_facts.dfy` (module `ZDataFacts`) proves the behaviour a caller can
  rely on:
  - every format is rejected once a service name is given;
  - the exact fields the parser extracts;
  - the exact URLs;
  - once a non-empty ticket is cached, no later sequence of calls changes it
    or requests that service's login URL again, whatever the network answers
    at each call.

The network is a parameter: `fetch` maps a URL to the body the server
answers with. A sequence of calls takes one such answer per call, so the
server may answer the same URL differently over time. Every operation also
returns `sent`, the URLs it requested, in order. This is how "a cache hit makes no request" and "the arguments are
checked before any request" are stated. A Python exception is a `Failure`
carrying an `Error`. The `IndexError` of `re.findall(...)[0]` on a missing
field is `NoMatch(key)`.

These behaviours of the source are kept as written:

- The branch of `__check_format`, `get_list` and `get_content` is chosen by
  substring containment. So `"Zoho"`, or a part such as `"Sheet"`, picks a
  branch.
- `__check_format` with a service name requires the format to be in that
  service's export list and also to be "xml" or "json". No format passes
  both.
- The cache test is truthiness, so an empty ticket is stored but counts as
  a miss.
- The Show document list is requested over `http://`.

## Model

| member | source | states |
|---|---|---|
| PyText.Contains | zdata/zdata.py:30-38 | `needle in haystack` holds exactly when the needle occurs at some index of the haystack |
| PyText.Find | zdata/zdata.py:62 | the index found is an occurrence of the key, and no earlier one exists; no index is found exactly when the key occurs nowhere |
| PyText.FirstCapture | zdata/zdata.py:62 | `re.findall("(?:KEY)(.*)", s)[0]`: a capture never runs past the end of its line and fits in the text after the key (its full contract is `FirstCaptureSpec`) |
| PyText.LineFrom | zdata/zdata.py:62 | what `.*` matches from an index: the text up to the next newline or the end, with no newline in it |
| PyText.FirstCaptureSpec | zdata/zdata.py:62 | `re.findall("(?:KEY)(.*)", s)[0]` raises exactly when KEY is absent; otherwise it returns the rest of the line after the first occurrence of KEY |
| PyText.CaptureAt | zdata/zdata.py:62 | a first occurrence at `i` followed by line `v` makes the capture `v` |
| PyText.FirstCaptureExact | zdata/zdata.py:62-67 | the capture is exactly the one value the first occurrence determines (both directions) |
| PyText.Interpolate | zdata/zdata.py:57 | `template % args`: a template without conversions is returned as it is when there are no arguments, and raises when there are some |
| PyText.InterpolateLiteral | zdata/zdata.py:57 | `%` copies text without `%` verbatim to the front of its result |
| PyText.InterpolateFills | zdata/zdata.py:57 | `%` on a template whose only conversions are `%s` holes puts the arguments into the holes, in order and verbatim |
| PyText.InterpolateArity | zdata/zdata.py:57 | `%` raises when the number of arguments differs from the number of holes |
| ZData.CheckServiceName | zdata/zdata.py:23-26 | passes exactly for "ZohoWriter", "ZohoSheet" and "ZohoShow"; otherwise fails with the rejected name |
| ZData.Truthy | zdata/zdata.py:54 | Python truthiness of a cached entry: `None` and the empty string are false, every other string is true |
| ZData.Branch | zdata/zdata.py:30-38 | the branch's name contains the text, and every earlier branch's name in the if/elif order (Writer, Sheet, Show) does not; there is none exactly when no service name contains it |
| ZData.ExportFormats | zdata/zdata.py:31-39 | the export list of each service, none of which holds "xml" or "json" |
| ZData.CheckFormat | zdata/zdata.py:28-44 | with the service text defaulting to `None`, passes exactly when the format is "xml" or "json" and the service text is falsy or picks no branch; otherwise fails with the format |
| ZData.CheckAccess | zdata/zdata.py:46-49 | passes exactly for "private" and "public"; otherwise fails with the access |
| ZData.TicketPieces | zdata/zdata.py:21 | `URL_TICKET` cut at its three `%s` holes; the password hole ends the URL |
| ZData.ListPieces | zdata/zdata.py:78-83 | each list template cut at its three `%s` holes; the ticket hole ends the URL |
| ZData.ContentPieces | zdata/zdata.py:104-109 | each content template cut at its five `%s` holes; the ticket hole ends the URL |
| ZData.TicketPiecesClean | zdata/zdata.py:21 | the login template has three `%s` holes and no other conversion |
| ZData.ListPiecesClean | zdata/zdata.py:78-83 | each list template has three `%s` holes and no other conversion |
| ZData.ContentPiecesClean | zdata/zdata.py:104-109 | each content template has five `%s` holes and no other conversion |
| ZData.LoginUrl | zdata/zdata.py:57 | the login URL is what `URL_TICKET % (servicename, username, password)` produces |
| ZData.ListUrl | zdata/zdata.py:75-83 | a URL exists exactly when the service text picks a branch; it is that branch's list template `%` (format, apikey, ticket) |
| ZData.ContentUrl | zdata/zdata.py:101-109 | a URL exists exactly when the service text picks a branch; it is that branch's content template `%` (access, format, id, apikey, ticket) |
| ZData.ParseLogin | zdata/zdata.py:62-67 | no `RESULT=` gives NoMatch and only then; a first `RESULT=` line of "FALSE" gives the `CAUSE=` line as the failure, and NoMatch exactly when `CAUSE=` is absent; any other line gives the `TICKET=` line, and NoMatch exactly when `TICKET=` is absent; no other error is raised |
| ZData.Respond | zdata/zdata.py:88-94 | "xml" answers the raw body; "json" answers the decoded body when `dict` is set and the raw body otherwise |
| ZData.TicketStep | zdata/zdata.py:51-69 | a bad name fails with no request; a truthy cached ticket is returned with no request; otherwise exactly the login URL is requested and its body parsed; a failure leaves the cache unchanged; a success stores the ticket under that service only |
| ZData.BranchOfName | zdata/zdata.py:30-38 | each service's own name picks that service's branch |
| ZData.KnownNameBranches | zdata/zdata.py:78-83 | a name that passes `__check_servicename` picks a branch, the service of that name |
| ZData.ListStep | zdata/zdata.py:71-94 | the service, then the format (default "json"), is checked before any request; past the checks an exception of `get_ticket` reaches the caller unchanged with nothing cached, and an obtained ticket makes the call succeed with exactly one more request, the list URL built with that ticket, answered with that request's body |
| ZData.ListStepFailure | zdata/zdata.py:72-75 | a failed `get_list` leaves the cache unchanged and has requested nothing or only the login URL |
| ZData.ListStepSuccess | zdata/zdata.py:75-94 | a successful `get_list` last requested the list template filled with format, API key and the cached ticket, and answers that request's body |
| ZData.ContentStep | zdata/zdata.py:96-120 | service, format (default "json") and access are checked, in that order, before any request; past the checks an exception of `get_ticket` reaches the caller unchanged with nothing cached, and an obtained ticket makes the call succeed with exactly one more request, the content URL built with that ticket, answered with that request's body |
| ZData.ContentStepFailure | zdata/zdata.py:97-101 | a failed `get_content` leaves the cache unchanged and has requested nothing or only the login URL |
| ZData.ContentStepSuccess | zdata/zdata.py:101-120 | a successful `get_content` last requested the content template filled with access, format, id, API key and the cached ticket, and answers that request's body |
| ZData.Client.constructor | zdata/zdata.py:12-21 | stores the credentials and starts every service without a ticket |
| ZData.Client.GetTicket | zdata/zdata.py:51-69 | updates the `ticket` field in place; its result, new field value and requests are those of `TicketStep` on the old field value |
| ZData.Client.GetList | zdata/zdata.py:71-94 | with `format` defaulting to "json" and `asDict` to false, its result, new `ticket` field and requests are those of `ListStep` on the old field value |
| ZData.Client.GetContent | zdata/zdata.py:96-120 | with `format` defaulting to "json" and `asDict` to false, its result, new `ticket` field and requests are those of `ContentStep` on the old field value |
| ZDataFacts.FormatRejectedForEveryService | zdata/zdata.py:28-44 | `__check_format(f, s)` fails for every format `f` and every one of the three service names `s` |
| ZDataFacts.PrefixPicksWriter | zdata/zdata.py:30 | "Zoho" picks the Writer branch |
| ZDataFacts.PartPicksSheet | zdata/zdata.py:34 | "Sheet" picks the Sheet branch |
| ZDataFacts.PartPicksShow | zdata/zdata.py:38 | "Show" picks the Show branch |
| ZDataFacts.OtherTextPicksNone | zdata/zdata.py:30-38 | "ZohoDocs" picks no branch |
| ZDataFacts.FormatCheckSkipsExports | zdata/zdata.py:29-42 | with a service text that picks no branch, or the falsy empty text, only the "xml"/"json" check applies |
| ZDataFacts.LoginFailsExactly | zdata/zdata.py:62-65 | the login fails with a cause exactly when the first `RESULT=` line is "FALSE" and the cause is the first `CAUSE=` line |
| ZDataFacts.LoginSucceedsExactly | zdata/zdata.py:62-69 | the login yields a ticket exactly when the first `RESULT=` line is not "FALSE" and the ticket is the first `TICKET=` line |
| ZDataFacts.LoginRefused | zdata/zdata.py:62-65 | the body `RESULT=FALSE\nCAUSE=c` fails with cause `c` |
| ZDataFacts.LoginGranted | zdata/zdata.py:62-69 | the body `RESULT=TRUE\nTICKET=t` yields ticket `t` |
| ZDataFacts.ListUrlSpelled | zdata/zdata.py:75-83 | the list URL is the branch's template text with format, API key and ticket in the holes, in that order |
| ZDataFacts.ContentUrlSpelled | zdata/zdata.py:101-109 | the content URL is the branch's template text with access, format, id, API key and ticket in the holes, in that order |
| ZDataFacts.WriterContentExample | zdata/zdata.py:104-105 | Writer/private/pdf/42/K/T gives `https://export.writer.zoho.com/api/private/pdf/content/42?apikey=K&ticket=T` |
| ZDataFacts.ShowListExample | zdata/zdata.py:82-83 | the Show list URL is `http://show.zoho.com/api/private/json/presentations?apikey=K&ticket=T`, over plain http |
| ZDataFacts.SecondTicketIsCached | zdata/zdata.py:51-69 | after a login that returned a non-empty ticket, the next `get_ticket` for that service returns it with no request, whatever the network says |
| ZDataFacts.EmptyTicketLogsInAgain | zdata/zdata.py:54-67 | an empty ticket is stored, and the next `get_ticket` for that service logs in again |
| ZDataFacts.TicketStepFrame | zdata/zdata.py:67 | `get_ticket` changes no other service's entry and never replaces a truthy ticket |
| ZDataFacts.RetryAfterRefusal | zdata/zdata.py:54-67 | a refused login caches nothing, so a second `get_ticket` logs in again and caches the ticket then granted; both calls request the login URL |
| ZDataFacts.PerformKeepsCached | zdata/zdata.py:51-120 | no operation replaces a truthy ticket or changes the entry of a service it does not name |
| ZDataFacts.RunKeepsCached | zdata/zdata.py:54-67 | once a service holds a truthy ticket, no sequence of operations changes it |
| ZDataFacts.RunOtherServices | zdata/zdata.py:67 | a sequence of operations that never names a service leaves that service's entry as it was |
| ZDataFacts.LoginUrlsDiffer | zdata/zdata.py:21 | two different services never share a login URL |
| ZDataFacts.ListUrlIsNoLogin | zdata/zdata.py:78-83 | no list URL is a login URL |
| ZDataFacts.ContentUrlIsNoLogin | zdata/zdata.py:104-109 | no content URL is a login URL |
| ZDataFacts.TicketStepNoLoginFor | zdata/zdata.py:54-57 | `get_ticket` never requests the login URL of a service whose ticket is truthy |
| ZDataFacts.ListStepNoLoginFor | zdata/zdata.py:71-86 | `get_list` never requests the login URL of a service whose ticket is truthy |
| ZDataFacts.ContentStepNoLoginFor | zdata/zdata.py:96-112 | `get_content` never requests the login URL of a service whose ticket is truthy |
| ZDataFacts.PerformNoLoginFor | zdata/zdata.py:51-112 | no operation requests the login URL of a service whose ticket is truthy |
| ZDataFacts.RunNeverLogsInAgain | zdata/zdata.py:54-57 | once a service holds a truthy ticket, no sequence of operations requests its login URL, whatever the network answers at each call |

## Left out

- `urllib.urlopen(url).read()` (zdata/zdata.py:59-60, 85-86, 111-112) is network I/O. It is the parameter `fetch`, a function from URL to body. Transport errors, timeouts and a URL of `None` are not modelled.
- `json.loads` (zdata/zdata.py:90, 116) is a foreign library. The model answers the body tagged `Decoded` instead of parsing it, so decoding errors are not modelled.
- `%` is modelled for `%s` conversions and the `%%` escape, which are all the client's templates use. Any other conversion (`%d`, `%r`, a width or a mapping key) is outside this model and `Interpolate` gives `None` for it.
- The regular-expression engine is modelled only for the pattern `(?:KEY)(.*)` with a KEY free of metacharacters, which is all the client uses. `.` is taken to match any character but `\n`.
- The exact text of the exception messages is left out. Each raised exception is an `Error` value naming the rejected argument, the login cause or the missing field.
- Python's `str()` of a non-string argument in `%` is left out: `id` and every other argument are strings.
- Bytes versus text in the response body is left out: the body is a string of characters.
- `URL_TICKET` is an instance attribute that nothing in the source reassigns. It is modelled as a constant template.
- `ZData.Respond` can answer `NoReply`, Python's implicit `None` for a format containing neither "json" nor "xml". `ListStepSuccess` and `ContentStepSuccess` prove this never happens after the format check.
- The CRM and Projects facades and any module registry are not part of this model.
