/** The series side of `get_indicator_data`: the request it sends and the text it makes of the
    answer. The answer is the decoded JSON body, or the message of whatever the request raised. */
module Series {
  import opened Wrappers
  import opened Text

  /** A JSON scalar as it reaches an f-string. `Num` carries Python's `str()` of the number. */
  datatype Scalar = Null | Bool(b: bool) | Str(s: string) | Num(text: string)

  /** One data point of the answer; a key absent from the JSON object is `None`. */
  datatype Point = Point(datetime: Option<Scalar>, value: Option<Scalar>, geoName: Option<Scalar>)

  /** The `indicator` object of the answer. */
  datatype Payload = Payload(name: Option<Scalar>, values: Option<seq<Point>>)

  /** The decoded answer. */
  datatype SeriesBody = SeriesBody(indicator: Option<Payload>)

  /** The outcome of the request: a decoded body, or the text of the exception the request,
      the status check or the decoding raised. */
  datatype SeriesFetch = Received(body: SeriesBody) | FetchFailed(message: string)

  /** The tool's arguments. The dates are already formatted with `strftime("%Y-%m-%dT%H:%M:%SZ")`. */
  datatype DataParams = DataParams(indicatorId: int, startDate: string, endDate: string,
                                   timeTrunc: string, timeAgg: string)

  const BaseUrl := "https://api.esios.ree.es"
  const MaxSampleValues: nat := 10
  const DataFailure := "Failed to get indicator data: "

  /** What an f-string prints for a scalar. */
  function Show(v: Scalar): string {
    match v
    case Null => "None"
    case Bool(b) => if b then "True" else "False"
    case Str(s) => s
    case Num(text) => text
  }

  /** The start of every request URL for one indicator. */
  function IndicatorPath(): string {
    BaseUrl + "/indicators/"
  }

  /** The query after the indicator id; the truncation and aggregation are passed on verbatim. */
  function Query(p: DataParams): string {
    "?start_date=" + p.startDate + "&end_date=" + p.endDate
    + "&time_trunc=" + p.timeTrunc + "&time_agg=" + p.timeAgg
  }

  /** The URL `get_indicator_data` requests. */
  function Endpoint(p: DataParams): string {
    IndicatorPath() + IntToString(p.indicatorId) + Query(p)
  }

  /** The URL names the indicator: after the path comes the id, which reads back as the id, and
      then the query. */
  lemma EndpointNamesIndicator(p: DataParams)
    ensures var id := IntToString(p.indicatorId);
            && IndicatorPath() + id <= Endpoint(p)
            && IsIntText(id) && ParseInt(id) == p.indicatorId
            && Endpoint(p)[|IndicatorPath() + id|] == '?'
  {
    var id := IntToString(p.indicatorId);
    PrefixOfAppend(IndicatorPath() + id, Query(p));
    IntToStringInverse(p.indicatorId);
    assert Query(p)[0] == '?';
  }

  /** The URL ends with the truncation and aggregation the caller gave, unchanged. */
  lemma EndpointForwardsOptions(p: DataParams)
    ensures var tail := "&time_trunc=" + p.timeTrunc + "&time_agg=" + p.timeAgg;
            |tail| <= |Endpoint(p)| && Endpoint(p)[|Endpoint(p)| - |tail|..] == tail
  {
    var tail := "&time_trunc=" + p.timeTrunc + "&time_agg=" + p.timeAgg;
    var head := IndicatorPath() + IntToString(p.indicatorId) + "?start_date=" + p.startDate
                + "&end_date=" + p.endDate;
    assert Query(p) == "?start_date=" + p.startDate + "&end_date=" + p.endDate + tail;
    assert Endpoint(p) == head + tail;
    SuffixOfAppend(head, tail);
  }

  /** A point has every key its sample line reads. */
  predicate Complete(pt: Point) {
    pt.datetime.Some? && pt.value.Some? && pt.geoName.Some?
  }

  predicate AllComplete(pts: seq<Point>) {
    forall i :: 0 <= i < |pts| ==> Complete(pts[i])
  }

  /** The key whose lookup raises, in the order the f-string reads them. */
  function MissingKey(pt: Point): (key: string)
    requires !Complete(pt)
    ensures key == "datetime" <==> pt.datetime.None?
    ensures key == "value" <==> pt.datetime.Some? && pt.value.None?
    ensures key == "geo_name" <==> pt.datetime.Some? && pt.value.Some? && pt.geoName.None?
  {
    if pt.datetime.None? then "datetime" else if pt.value.None? then "value" else "geo_name"
  }

  /** The key missing from the first incomplete point, if any point is incomplete. */
  function FirstMissing(pts: seq<Point>): (r: Option<string>)
    ensures r.None? <==> AllComplete(pts)
    ensures r.Some? ==> exists i :: 0 <= i < |pts| && AllComplete(pts[..i]) && !Complete(pts[i])
                                    && r.value == MissingKey(pts[i])
  {
    if pts == [] then None
    else
      var init := pts[..|pts| - 1];
      var last := pts[|pts| - 1];
      match FirstMissing(init)
      case Some(key) =>
        assert forall i :: 0 <= i < |init| ==> init[..i] == pts[..i] && init[i] == pts[i];
        Some(key)
      case None =>
        assert init == pts[..|pts| - 1];
        if Complete(last) then None else Some(MissingKey(last))
  }

  /** Once a prefix has an incomplete point, the whole sequence fails on the same key. */
  lemma {:induction false} FirstMissingExtends(pts: seq<Point>, j: nat)
    requires j <= |pts|
    ensures FirstMissing(pts[..j]).Some? ==> FirstMissing(pts) == FirstMissing(pts[..j])
    decreases |pts|
  {
    if j < |pts| && FirstMissing(pts[..j]).Some? {
      var init := pts[..|pts| - 1];
      assert init[..j] == pts[..j];
      FirstMissingExtends(init, j);
    } else if j == |pts| {
      assert pts[..j] == pts;
    }
  }

  /** The line written for one complete point. */
  function Line(pt: Point): string
    requires Complete(pt)
  {
    "Datetime: " + Show(pt.datetime.value) + ", Value: " + Show(pt.value.value)
    + ", Geo name: " + Show(pt.geoName.value) + "\n"
  }

  /** The lines of the points, in order. */
  function Lines(pts: seq<Point>): string
    requires AllComplete(pts)
  {
    if pts == [] then "" else Lines(pts[..|pts| - 1]) + Line(pts[|pts| - 1])
  }

  /** How many points are listed: `values[:10]`. */
  function SampleSize(count: nat): (k: nat)
    ensures k <= count && k <= MaxSampleValues
    ensures k == count || k == MaxSampleValues
  {
    if count < MaxSampleValues then count else MaxSampleValues
  }

  /** The three header lines. */
  function SeriesHeader(id: int, name: string, count: nat): string {
    "Data for indicator " + IntToString(id) + ":\n"
    + "Name: " + name + "\n"
    + "Values: " + NatToString(count) + " data points\n\n"
  }

  /** What is written after the listed points. */
  function Trailer(count: nat): string {
    if count > MaxSampleValues then "\n... and " + NatToString(count - MaxSampleValues) + " more data points"
    else ""
  }

  /** The report on a series whose listed points are complete. */
  function SeriesReport(id: int, name: string, values: seq<Point>): string
    requires AllComplete(values[..SampleSize(|values|)])
  {
    SeriesHeader(id, name, |values|) + Lines(values[..SampleSize(|values|)]) + Trailer(|values|)
  }

  /** The text for a series with a name: a failure on the first incomplete listed point, else
      the report. Points after the first ten are never looked at. */
  function SeriesText(id: int, name: Scalar, values: seq<Point>): string {
    match FirstMissing(values[..SampleSize(|values|)])
    case Some(key) => DataFailure + KeyErrorText(key)
    case None => SeriesReport(id, Show(name), values)
  }

  /** The text `get_indicator_data` returns for the answer `fetch`. The lookups raise in the
      order the code makes them: `indicator`, `values`, then `name`. */
  function DataText(p: DataParams, fetch: SeriesFetch): string {
    match fetch
    case FetchFailed(message) => DataFailure + message
    case Received(body) =>
      if body.indicator.None? then DataFailure + KeyErrorText("indicator")
      else if body.indicator.value.values.None? then DataFailure + KeyErrorText("values")
      else if body.indicator.value.name.None? then DataFailure + KeyErrorText("name")
      else SeriesText(p.indicatorId, body.indicator.value.name.value, body.indicator.value.values.value)
  }

  /** Appending the line of point `i` extends the lines of the points before it. */
  lemma LinesSnoc(pts: seq<Point>, i: nat)
    requires i < |pts| && AllComplete(pts[..i + 1])
    ensures AllComplete(pts[..i]) && Complete(pts[i])
    ensures Lines(pts[..i + 1]) == Lines(pts[..i]) + Line(pts[i])
  {
    assert pts[..i + 1][..i] == pts[..i];
    assert pts[..i + 1][i] == pts[i];
  }

  /** The invariant of the sample loop is kept by appending the next point's line. */
  lemma LinesStep(text: string, result: string, pts: seq<Point>, i: nat, line: string)
    requires i < |pts| && AllComplete(pts[..i + 1])
    requires result == text + Lines(pts[..i])
    requires line == Line(pts[i])
    ensures result + line == text + Lines(pts[..i + 1])
  {
    LinesSnoc(pts, i);
    AppendAssoc(text, Lines(pts[..i]), line);
  }

  /** The lines of the first `j` points are a prefix of the lines of all points. */
  lemma {:induction false} LinesPrefix(pts: seq<Point>, j: nat)
    requires AllComplete(pts) && j <= |pts|
    ensures AllComplete(pts[..j]) && Lines(pts[..j]) <= Lines(pts)
    decreases |pts|
  {
    if j < |pts| {
      var init := pts[..|pts| - 1];
      assert init[..j] == pts[..j];
      assert AllComplete(init);
      LinesPrefix(init, j);
    } else {
      assert pts[..j] == pts;
    }
  }

  /** Point `k`'s line is written, whole and in order, right after the lines of the points
      before it. */
  lemma LineAt(pts: seq<Point>, k: nat)
    requires AllComplete(pts) && k < |pts|
    ensures AllComplete(pts[..k]) && Lines(pts[..k]) + Line(pts[k]) <= Lines(pts)
  {
    LinesPrefix(pts, k + 1);
    LinesSnoc(pts, k);
  }

  /** The header's third line reads back as the number of points. */
  lemma SeriesHeaderCount(id: int, name: string, count: nat)
    ensures var before := "Data for indicator " + IntToString(id) + ":\n" + "Name: " + name + "\n" + "Values: ";
            var digits := NatToString(count);
            && before + digits <= SeriesHeader(id, name, count)
            && DigitsValue(digits) == count
  {
    var before := "Data for indicator " + IntToString(id) + ":\n" + "Name: " + name + "\n" + "Values: ";
    assert SeriesHeader(id, name, count) == (before + NatToString(count)) + " data points\n\n";
    PrefixOfAppend(before + NatToString(count), " data points\n\n");
    NatToStringInverse(count);
  }

  /** The trailer is written exactly when there are more than ten points. */
  lemma TrailerIff(count: nat)
    ensures Trailer(count) != "" <==> count > MaxSampleValues
  {
    if count > MaxSampleValues {
      assert |Trailer(count)| > 0;
    }
  }

  /** The trailer's number reads back as how many points were not listed. */
  lemma TrailerCount(count: nat)
    requires count > MaxSampleValues
    ensures var digits := NatToString(count - MaxSampleValues);
            && "\n... and " + digits <= Trailer(count)
            && DigitsValue(digits) + MaxSampleValues == count
  {
    var digits := NatToString(count - MaxSampleValues);
    PrefixOfAppend("\n... and " + digits, " more data points");
    NatToStringInverse(count - MaxSampleValues);
  }

  /** The listed points are exactly the first `min(count, 10)` points, in order. */
  lemma SampleLineAt(values: seq<Point>, k: nat)
    requires k < SampleSize(|values|) && AllComplete(values[..SampleSize(|values|)])
    ensures var sample := values[..SampleSize(|values|)];
            AllComplete(sample[..k]) && Complete(values[k])
            && Lines(sample[..k]) + Line(values[k]) <= Lines(sample)
  {
    var sample := values[..SampleSize(|values|)];
    LineAt(sample, k);
    assert sample[k] == values[k];
  }

  /** Two answers with the same number of points and the same first ten points give the same
      text: nothing after the tenth point is read. */
  lemma {:induction false} OnlyListedPointsMatter(id: int, name: Scalar, values: seq<Point>, others: seq<Point>)
    requires |values| == |others|
    requires values[..SampleSize(|values|)] == others[..SampleSize(|others|)]
    ensures SeriesText(id, name, values) == SeriesText(id, name, others)
  {
    var sample := values[..SampleSize(|values|)];
    if FirstMissing(sample).None? {
      assert SeriesReport(id, Show(name), values)
          == SeriesHeader(id, Show(name), |values|) + Lines(sample) + Trailer(|values|);
    }
  }

  /** Whether the answer has everything the report reads. */
  predicate Reportable(fetch: SeriesFetch) {
    && fetch.Received?
    && fetch.body.indicator.Some?
    && fetch.body.indicator.value.values.Some?
    && fetch.body.indicator.value.name.Some?
    && var values := fetch.body.indicator.value.values.value;
       AllComplete(values[..SampleSize(|values|)])
  }

  /** The text is a failure exactly when the request failed, a key the report reads is missing,
      or one of the listed points lacks a key; points after the tenth cannot make it fail. */
  lemma FailureIff(p: DataParams, fetch: SeriesFetch)
    ensures DataFailure <= DataText(p, fetch) <==> !Reportable(fetch)
  {
    var text := DataText(p, fetch);
    if Reportable(fetch) {
      var payload := fetch.body.indicator.value;
      var values := payload.values.value;
      assert text == SeriesReport(p.indicatorId, Show(payload.name.value), values);
      ReportBegins(p.indicatorId, Show(payload.name.value), values);
      assert DataFailure[0] == 'F';
    } else {
      FailureText(p, fetch);
    }
  }

  /** A report begins with the header's first letter. */
  lemma ReportBegins(id: int, name: string, values: seq<Point>)
    requires AllComplete(values[..SampleSize(|values|)])
    ensures |SeriesReport(id, name, values)| > 0 && SeriesReport(id, name, values)[0] == 'D'
  {
    AppendAssoc(SeriesHeader(id, name, |values|), Lines(values[..SampleSize(|values|)]), Trailer(|values|));
    assert SeriesHeader(id, name, |values|)[0] == 'D';
  }

  /** Every way of not being reportable yields the failure prefix. */
  lemma FailureText(p: DataParams, fetch: SeriesFetch)
    requires !Reportable(fetch)
    ensures DataFailure <= DataText(p, fetch)
  {
    var text := DataText(p, fetch);
    if fetch.FetchFailed? {
      PrefixOfAppend(DataFailure, fetch.message);
    } else if fetch.body.indicator.None? {
      PrefixOfAppend(DataFailure, KeyErrorText("indicator"));
    } else if fetch.body.indicator.value.values.None? {
      PrefixOfAppend(DataFailure, KeyErrorText("values"));
    } else if fetch.body.indicator.value.name.None? {
      PrefixOfAppend(DataFailure, KeyErrorText("name"));
    } else {
      var values := fetch.body.indicator.value.values.value;
      var key := FirstMissing(values[..SampleSize(|values|)]).value;
      PrefixOfAppend(DataFailure, KeyErrorText(key));
    }
  }

  /** The f-string of one sample line, which raises `KeyError` on the first missing key. */
  method WriteLine(pt: Point) returns (r: Result<string, string>)
    ensures Complete(pt) ==> r == Ok(Line(pt))
    ensures !Complete(pt) ==> r == Err(MissingKey(pt))
  {
    if pt.datetime.None? {
      return Err("datetime");
    }
    if pt.value.None? {
      return Err("value");
    }
    if pt.geoName.None? {
      return Err("geo_name");
    }
    r := Ok("Datetime: " + Show(pt.datetime.value) + ", Value: " + Show(pt.value.value)
            + ", Geo name: " + Show(pt.geoName.value) + "\n");
  }

  /** The `for` loop over the sample, appending each line to `text` with `+=`; a missing key
      ends it with that key. */
  method AppendSamples(text: string, sample: seq<Point>) returns (r: Result<string, string>)
    ensures FirstMissing(sample).None? ==> r == Ok(text + Lines(sample))
    ensures FirstMissing(sample).Some? ==> r == Err(FirstMissing(sample).value)
  {
    var result := text;
    var i := 0;
    while i < |sample|
      invariant 0 <= i <= |sample|
      invariant AllComplete(sample[..i])
      invariant result == text + Lines(sample[..i])
    {
      var line := WriteLine(sample[i]);
      assert sample[..i + 1][..i] == sample[..i];
      if line.Err? {
        assert FirstMissing(sample[..i + 1]) == Some(line.error);
        FirstMissingExtends(sample, i + 1);
        return line;
      }
      assert AllComplete(sample[..i + 1]);
      LinesStep(text, result, sample, i, line.value);
      result := result + line.value;
      i := i + 1;
    }
    assert sample[..i] == sample;
    r := Ok(result);
  }

  /** From the answer to the text `get_indicator_data` returns: the failure text of the request,
      the text of the first lookup that raises, or the header, the sample lines and the trailer. */
  method BuildDataText(p: DataParams, fetch: SeriesFetch) returns (text: string)
    ensures text == DataText(p, fetch)
  {
    if fetch.FetchFailed? {
      return DataFailure + fetch.message;
    }
    var indicator := fetch.body.indicator;
    if indicator.None? {
      return DataFailure + KeyErrorText("indicator");
    }
    if indicator.value.values.None? {
      return DataFailure + KeyErrorText("values");
    }
    var values := indicator.value.values.value;
    if indicator.value.name.None? {
      return DataFailure + KeyErrorText("name");
    }
    var header := SeriesHeader(p.indicatorId, Show(indicator.value.name.value), |values|);
    var sample := values[..SampleSize(|values|)];
    var listed := AppendSamples(header, sample);
    if listed.Err? {
      return DataFailure + KeyErrorText(listed.error);
    }
    text := listed.value;
    if |values| > MaxSampleValues {
      text := text + "\n... and " + NatToString(|values| - MaxSampleValues) + " more data points";
    }
  }
}
