/**
 * A report request end to end: the button press handled by process_report
 * (main.py:177-187) and the period reply handled by the get_period handler it
 * installs (main.py:189-217).  The report endpoint (main.py:54-65) is the
 * parameter `fetch`, from API key and date range to the records it returns.
 */
module Report {
  import opened Common
  import opened Shops
  import opened Callback
  import opened Period
  import opened Sales

  datatype ReportOutcome =
    | UnknownShop                 // no shop for the button: only the callback is answered
    | AskForDates                 // the reply is no alias: explicit dates are asked for
    | FetchFailed                 // the endpoint gave nothing (`not sales_data`)
    | Failed(error: DataError)    // the records cannot be summarised
    | Report(summary: Summary)

  function ProcessReport(
    shops: seq<Shop>, data: string, periodText: string,
    fetch: (string, DateRange) -> Option<seq<Record>>): (r: ReportOutcome)
    requires IsReportCallback(data)
    ensures Select(shops, data).None? <==> r == UnknownShop
    ensures Select(shops, data).Some? ==> (Resolve(periodText).None? <==> r == AskForDates)
    ensures r == FetchFailed <==>
              && Select(shops, data).Some? && Resolve(periodText).Some?
              && fetch(Select(shops, data).value.apiKey, Resolve(periodText).value) in {None, Some([])}
    ensures r.Report? ==>
              && Select(shops, data).Some? && Resolve(periodText).Some?
              && var records := fetch(Select(shops, data).value.apiKey, Resolve(periodText).value);
              && records.Some? && records.value != []
              && Summarize(Select(shops, data).value.name, records.value) == Success(r.summary)
    ensures r.Failed? <==>
              && Select(shops, data).Some? && Resolve(periodText).Some?
              && var records := fetch(Select(shops, data).value.apiKey, Resolve(periodText).value);
              && records.Some? && records.value != []
              && Summarize(Select(shops, data).value.name, records.value).Failure?
    ensures Select(shops, data).Some? && Resolve(periodText).Some? ==>
              var records := fetch(Select(shops, data).value.apiKey, Resolve(periodText).value);
              records.Some? && records.value != [] && Summarize(Select(shops, data).value.name, records.value).Success?
              ==> r == Report(Summarize(Select(shops, data).value.name, records.value).value)
  {
    match Select(shops, data)
    case None => UnknownShop
    case Some(shop) =>
      match Resolve(periodText)
      case None => AskForDates
      case Some(range) =>
        match fetch(shop.apiKey, range)
        case None => FetchFailed
        case Some(records) =>
          if records == [] then FetchFailed
          else match Summarize(shop.name, records)
            case Failure(e) => Failed(e)
            case Success(summary) => Report(summary)
  }

  /** For a report button, a reply that names no alias never produces a report, whatever the endpoint holds. */
  lemma NoAliasNoReport(shops: seq<Shop>, data: string, periodText: string,
                        fetch: (string, DateRange) -> Option<seq<Record>>)
    requires IsReportCallback(data)
    requires Resolve(periodText).None?
    ensures !ProcessReport(shops, data, periodText, fetch).Report?
  {
  }

  /**
   * Pressing the button of shop `i` and answering 'вчера' asks the endpoint for
   * 2023-01-06 with that shop's key, and reports on that shop's records.
   */
  lemma ButtonAndYesterdayReport(shops: seq<Shop>, i: nat, fetch: (string, DateRange) -> Option<seq<Record>>)
    requires i < |shops|
    requires var records := fetch(shops[i].apiKey, DateRange(YesterdayDate, YesterdayDate));
             records.Some? && Sum(records.value, Quantity) != 0
    ensures var records := fetch(shops[i].apiKey, DateRange(YesterdayDate, YesterdayDate)).value;
            ProcessReport(shops, Encode(i), "Вчера", fetch) == Report(Summarize(shops[i].name, records).value)
  {
    SelectEncode(shops, i);
    assert Lower("Вчера") == YesterdayAlias;
    ResolveYesterday("Вчера");
  }
}
