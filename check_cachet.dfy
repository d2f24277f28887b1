/** The plugin itself: scheme normalisation of the URL, the `CheckCachet`
    probe over a fetched page, and the run that turns the probe's entries
    into an exit code and a report. The HTTP request and the HTML parser are
    abstracted: a `Response` carries the HTTP status and the page's `li`
    elements in document order. */
module Plugin {
  import opened Wrappers
  import opened Text
  import opened Status
  import opened Probe
  import opened Report

  /** What the HTTP request and the HTML parser deliver. */
  datatype Response = Response(httpStatus: int, items: seq<ListItem>)

  /** Prepends `https://` unless the first four characters are `http`. */
  function NormalizeUrl(url: string): (r: string)
    ensures StartsWith(r, "http")
    ensures StartsWith(url, "http") ==> r == url
    ensures !StartsWith(url, "http") ==> r == "https://" + url
  {
    FirstFourIsPrefix(url, "http");
    if FirstFour(url) != "http" then "https://" + url else url
  }

  /** Normalising an already normalised URL changes nothing. */
  lemma NormalizeIdempotent(url: string)
    ensures NormalizeUrl(NormalizeUrl(url)) == NormalizeUrl(url)
  {
    var once := NormalizeUrl(url);
    assert StartsWith(once, "http");
  }

  /** The description of the entry reported when the page cannot be fetched. */
  function RequestFailedMessage(url: string): string {
    "Unable to request url \"" + url + "\""
  }

  /** What a probe of `url` yields for a response: a single UNKNOWN entry
      when the status is not 200, and otherwise the extraction result. */
  function ProbeResult(url: string, response: Response): Result<seq<Entry>, Fault> {
    if response.httpStatus != 200 then Success([Entry(StatusUnknown, RequestFailedMessage(url))])
    else Extract(response.items)
  }

  /** A probe with a non-200 response ends in exit code UNKNOWN, never
      CRITICAL, with the request failure as the single report line. */
  lemma RequestFailureIsUnknown(url: string, response: Response)
    requires response.httpStatus != 200
    ensures ProbeResult(url, response).Success?
    ensures MaxCode(Padded(url, ProbeResult(url, response).value)) == StatusUnknown
    ensures ReportText(Padded(url, ProbeResult(url, response).value))
      == "UNKNOWN: " + RequestFailedMessage(url)
  {
    var es := ProbeResult(url, response).value;
    var message := RequestFailedMessage(url);
    assert es == [Entry(StatusUnknown, message)];
    var line := "UNKNOWN: " + message;
    assert TierLines(es, TierOrder) == [line] by {
      PlaceholderBuckets(es, message);
      LabelledLine(es, StatusUnknown);
      assert Join(", ", [message]) == message;
      TierLinesInOrder(es);
    }
    assert Join("\n", [line]) == line;
  }

  /** On a 200 response, the exit code is UNKNOWN exactly when the page has
      no component entry; otherwise it is the worst badge's code. */
  lemma FetchedPageCode(url: string, response: Response)
    requires response.httpStatus == 200
    requires ProbeResult(url, response).Success?
    ensures var code := MaxCode(Padded(url, ProbeResult(url, response).value));
      IsCode(code) && (code == StatusUnknown <==> Candidates(response.items) == [])
  {
    var items := response.items;
    AcceptedMatchesCandidates(items);
    UnknownIffNothingFound(url, Accepted(items));
  }

  /** The status checker for one status page. */
  class CheckCachet {
    const url: string
    /** The known status classes, in the table's order. */
    const statusList: seq<string> := StatusList

    constructor (url: string)
      ensures this.url == url
    {
      this.url := url;
    }

    /** Walks the page's `li` elements in document order, skipping those
        that are not component entries, and classifies each entry's badge.
        A non-200 status yields the corrected one-entry list; the bare pair
        the code returns there is modelled by `ProbeAsWritten`. */
    method Probe(response: Response) returns (r: Result<seq<Entry>, Fault>)
      ensures r == ProbeResult(url, response)
    {
      if response.httpStatus != 200 {
        return Success([Entry(StatusUnknown, RequestFailedMessage(url))]);
      }
      var items := response.items;
      var returnItems: seq<Entry> := [];
      var i := 0;
      while i < |items|
        invariant 0 <= i <= |items|
        invariant FirstCrash(items[..i]).None?
        invariant returnItems == Accepted(items[..i])
      {
        var outcome := this.Inspect(items[i]);
        ExtractStep(items, i);
        match outcome {
          case Crash(kind) => return Failure(Fault(i, kind));
          case Keep(entry) => returnItems := returnItems + [entry];
          case Skip =>
        }
        i := i + 1;
      }
      assert items[..|items|] == items;
      assert Extract(items) == Success(returnItems);
      return Success(returnItems);
    }

    /** The loop body of the probe for one `li` element: skip it unless it
        carries both component classes, break off when its badge is missing,
        has no class list or names no known status, and otherwise build its
        entry from the stripped texts. */
    method Inspect(item: ListItem) returns (outcome: ItemOutcome)
      ensures outcome == Classify(item)
    {
      if item.classes.None? || item.classes.value == [] {
        return Skip;
      }
      if |Elements(ClassComponents) * Elements(item.classes.value)| != 2 {
        return Skip;
      }
      if item.badge.None? {
        return Crash(MissingBadge);
      }
      var small := item.badge.value;
      if small.classes.None? {
        return Crash(BadgeWithoutClass);
      }
      var classStatus := ResolveTag(statusList, small.classes.value);
      if classStatus.None? {
        return Crash(NoStatusClass);
      }
      var classStatusCode := TagCode(classStatus.value);
      var itemText := Strip(item.text);
      if classStatusCode != StatusOk {
        itemText := itemText + ": " + Strip(small.text);
      }
      return Keep(Entry(classStatusCode, itemText));
    }
  }

  /** One run of the plugin: normalise the URL, probe the page, aggregate.
      The result is the exit code and the report text, or the fault the
      extraction broke off with. It follows the corrected probe; the run as
      written is `RunAsWritten`. */
  method Run(rawUrl: string, response: Response) returns (r: Result<(int, string), Fault>)
    ensures var url := NormalizeUrl(rawUrl);
      match ProbeResult(url, response)
      case Failure(f) => r == Failure(f)
      case Success(es) => r == Success((MaxCode(Padded(url, es)), ReportText(Padded(url, es))))
  {
    var url := NormalizeUrl(rawUrl);
    var check := new CheckCachet(url);
    var items := check.Probe(response);
    if items.Failure? {
      return Failure(items.error);
    }
    var code, text := BuildReport(url, items.value);
    return Success((code, text));
  }

  /** The probe as written: a non-200 response yields a bare pair instead of
      a list holding one pair. */
  datatype ProbeValue = EntryList(entries: seq<Entry>) | BarePair(code: int, message: string)

  /** How the run breaks off: in the extraction, or when it indexes the
      integer that is the first element of a bare pair. */
  datatype RunFault = ExtractFault(fault: Fault) | IntNotSubscriptable

  /** The probe as written, including its non-200 branch. */
  function ProbeAsWritten(url: string, response: Response): Result<ProbeValue, Fault> {
    if response.httpStatus != 200 then Success(BarePair(StatusUnknown, RequestFailedMessage(url)))
    else match Extract(response.items)
      case Failure(f) => Failure(f)
      case Success(es) => Success(EntryList(es))
  }

  /** The run as written: `max(x[0] for x in items)` meets the integer
      element of a bare pair first, and indexing it fails. */
  function RunAsWritten(url: string, value: Result<ProbeValue, Fault>): Result<(int, string), RunFault> {
    match value
    case Failure(f) => Failure(ExtractFault(f))
    case Success(BarePair(_, _)) => Failure(IntNotSubscriptable)
    case Success(EntryList(es)) => Success((MaxCode(Padded(url, es)), ReportText(Padded(url, es))))
  }

  /** As written, every non-200 response makes the run fail instead of
      reporting UNKNOWN; on 200 responses both versions agree. */
  lemma RequestFailureCrashesAsWritten(url: string, response: Response)
    ensures response.httpStatus != 200 ==>
      RunAsWritten(url, ProbeAsWritten(url, response)) == Failure(IntNotSubscriptable)
    ensures response.httpStatus == 200 ==>
      match ProbeResult(url, response)
      case Failure(f) => RunAsWritten(url, ProbeAsWritten(url, response)) == Failure(ExtractFault(f))
      case Success(es) =>
        (RunAsWritten(url, ProbeAsWritten(url, response))
           == Success((MaxCode(Padded(url, es)), ReportText(Padded(url, es)))))
  {
  }
}
