/**
 * The Data Commons client (datacommons.py): the request URL, the shaping of a decoded
 * response into a record for a point or a table lookup, and the batch dispatch that
 * numbers the records by the position of their query.
 */
module DataCommonsApi {
  import opened Wrappers
  import opened Text
  import opened OrderedDict
  import opened Records

  /** `_BASE_URL` around its `{env}` placeholder. */
  const UrlScheme: string := "https://"
  const UrlHost: string := ".datacommons.org/nodejs/query"

  /** `_POINT_PARAMS` and `_TABLE_PARAMS`. */
  const PointParams: string := "allCharts=1&mode=toolformer_rig&idx=base_uae_mem"
  const TableParams: string := "mode=toolformer_rag&client=table&idx=base_uae_mem"

  /** The fields of a `DataCommons` client that the modelled code reads. */
  datatype Config = Config(apiKey: string, numThreads: int, env: string)

  /** The decoded JSON response; `None` stands for a key that is absent. */
  datatype Source = Source(name: Option<string>)
  datatype Highlight = Highlight(value: Option<string>, date: Option<string>)
  datatype Chart = Chart(
    kind: Option<string>,
    highlight: Option<Highlight>,
    unit: Option<string>,
    title: Option<string>,
    srcs: Option<seq<Source>>,
    dcUrl: Option<string>,
    dataCsv: Option<string>)
  /** `debug.debug.sv_matching`. */
  datatype SvMatching = SvMatching(cosineScore: Option<seq<real>>, sv: Option<seq<string>>)
  datatype ApiResponse = ApiResponse(charts: Option<seq<Chart>>, svMatching: Option<SvMatching>)

  /**
   * What the client calls but this model does not contain: `session.get(url).json()`
   * (a `Failure` for any error it raises), `utils.round_float`, and `csv.reader`.
   */
  datatype Services = Services(
    get: string -> Result<ApiResponse>,
    roundFloat: string -> string,
    readCsv: string -> seq<seq<string>>)

  /** `d.get(key, default)` on an optional field. */
  function Or<T>(o: Option<T>, default: T): T
  {
    if o.Some? then o.value else default
  }

  /** `_src(chart)`: the name of the first source, or `""`. */
  function Src(chart: Chart): (s: string)
    ensures chart.srcs.Some? && chart.srcs.value != [] && chart.srcs.value[0].name.Some?
      ==> s == chart.srcs.value[0].name.value
    ensures chart.srcs.None? || chart.srcs.value == [] || chart.srcs.value[0].name.None? ==> s == ""
  {
    var srcs := Or(chart.srcs, [Source(None)]);
    if srcs == [] then "" else Or(srcs[0].name, "")
  }

  /** The query as it appears in the URL: stripped, with every space turned into `+`. */
  function EncodeQuery(query: string): (r: string)
    ensures |r| == |Strip(query)|
    ensures forall k :: 0 <= k < |r| ==> r[k] == if Strip(query)[k] == ' ' then '+' else Strip(query)[k]
    ensures ' ' !in r
  {
    ReplaceChar(Strip(query), ' ', '+')
  }

  /**
   * The URL built by `_call_api(query, params)`: it starts with the environment's host and
   * the encoded query, and no space reaches it unless the environment, the parameters or
   * the key carry one.
   */
  function Url(cfg: Config, query: string, params: string): (r: string)
    ensures var head := UrlScheme + cfg.env + UrlHost + "?&q=";
      |head| + |EncodeQuery(query)| < |r| && r[..|head|] == head
      && r[|head|..|head| + |EncodeQuery(query)|] == EncodeQuery(query)
    ensures ' ' !in cfg.env && ' ' !in params && ' ' !in cfg.apiKey ==> ' ' !in r
    ensures cfg.apiKey != "" ==> |r| > |cfg.apiKey| && r[|r| - |cfg.apiKey|..] == cfg.apiKey
  {
    var head := UrlScheme + cfg.env + UrlHost + "?&q=";
    var url := head + EncodeQuery(query) + "&" + params;
    UrlLayout(head, EncodeQuery(query), params, cfg.apiKey);
    UrlNoSpace(cfg.env);
    if cfg.apiKey != "" then url + "&apikey=" + cfg.apiKey else url
  }

  /** Where the head, the query and the key sit in either form of the URL. */
  lemma UrlLayout(head: string, q: string, params: string, key: string)
    ensures var url := head + q + "&" + params;
      && |head| + |q| < |url| && url[..|head|] == head && url[|head|..|head| + |q|] == q
      && var keyed := url + "&apikey=" + key;
      |head| + |q| < |keyed| && keyed[..|head|] == head && keyed[|head|..|head| + |q|] == q
      && |keyed| - |key| >= 0 && keyed[|keyed| - |key|..] == key
  {
    var url := head + q + "&" + params;
    assert url[..|head|] == head;
    assert url[|head|..|head| + |q|] == q;
    var keyed := url + "&apikey=" + key;
    assert keyed[..|head|] == head by {
      assert keyed == head + (q + "&" + params + "&apikey=" + key);
    }
    assert keyed[|head|..|head| + |q|] == q by {
      assert keyed == head + q + ("&" + params + "&apikey=" + key);
    }
    assert keyed[|keyed| - |key|..] == key;
  }

  /** The fixed parts of the URL hold no space, so one in the URL comes from the environment. */
  lemma UrlNoSpace(env: string)
    ensures ' ' !in env ==> ' ' !in UrlScheme + env + UrlHost + "?&q=" && ' ' !in "&" && ' ' !in "&apikey="
  {
    assert ' ' !in UrlScheme by {
      assert forall k :: 0 <= k < |UrlScheme| ==> UrlScheme[k] != ' ';
    }
    assert ' ' !in UrlHost by {
      assert forall k :: 0 <= k < |UrlHost| ==> UrlHost[k] != ' ';
    }
    assert ' ' !in "?&q=" by {
      assert forall k :: 0 <= k < 4 ==> "?&q="[k] != ' ';
    }
    assert ' ' !in "&apikey=" by {
      assert forall k :: 0 <= k < 8 ==> "&apikey="[k] != ' ';
    }
  }

  /** The URL is the base, the encoded query and the parameters, then the key suffix exactly when there is a key. */
  lemma UrlParts(cfg: Config, query: string, params: string)
    ensures var base := UrlScheme + cfg.env + UrlHost + "?&q=" + EncodeQuery(query) + "&" + params;
      && (cfg.apiKey == "" ==> Url(cfg, query, params) == base)
      && (cfg.apiKey != "" ==> Url(cfg, query, params) == base + "&apikey=" + cfg.apiKey)
      && |Url(cfg, query, params)| >= |base|
  {
  }

  /** Two queries that strip to the same text give the same URL. */
  lemma UrlOfStripped(cfg: Config, a: string, b: string, params: string)
    requires Strip(a) == Strip(b)
    ensures Url(cfg, a, params) == Url(cfg, b, params)
  {
    assert EncodeQuery(a) == EncodeQuery(b);
  }

  /** `strip()` is idempotent, so surrounding whitespace never reaches the URL. */
  lemma UrlIgnoresSurroundingSpace(cfg: Config, query: string, params: string)
    ensures Url(cfg, Strip(query), params) == Url(cfg, query, params)
  {
    StripIdempotent(query);
    UrlOfStripped(cfg, Strip(query), query, params);
  }

  /** A chart `point` accepts. */
  predicate IsSeries(c: Chart)
  {
    c.kind == Some("LINE") || c.kind == Some("HIGHLIGHT")
  }

  /** Chart k is a series chart and no earlier one is. */
  predicate FirstSeriesAt(charts: seq<Chart>, k: int)
  {
    0 <= k < |charts| && IsSeries(charts[k]) && forall j :: 0 <= j < k ==> !IsSeries(charts[j])
  }

  /** The first chart of type `LINE` or `HIGHLIGHT`. */
  function FirstSeries(charts: seq<Chart>): (r: Option<Chart>)
    ensures r.None? <==> forall k :: 0 <= k < |charts| ==> !IsSeries(charts[k])
    ensures r.Some? ==> exists k :: FirstSeriesAt(charts, k) && charts[k] == r.value
  {
    if charts == [] then None
    else if IsSeries(charts[0]) then Some(charts[0])
    else
      var r := FirstSeries(charts[1..]);
      assert r.Some? ==> exists k :: FirstSeriesAt(charts, k) && charts[k] == r.value by {
        if r.Some? {
          var k :| FirstSeriesAt(charts[1..], k) && charts[1..][k] == r.value;
          assert forall j :: 1 <= j < k + 1 ==> charts[j] == charts[1..][j - 1];
          assert FirstSeriesAt(charts, k + 1);
        }
      }
      r
  }

  /** The `sv_matching` part of a response, `{}` when absent. */
  function Matching(response: ApiResponse): SvMatching
  {
    Or(response.svMatching, SvMatching(None, None))
  }

  /**
   * `svm.get('CosineScore', [-1])[0]` and `svm.get('SV', [''])[0]`: a present but empty list
   * raises, which is a `Failure`.
   */
  function Match(svm: SvMatching): (r: Result<(real, string)>)
    ensures r.Success? <==> (svm.cosineScore.None? || svm.cosineScore.value != []) && (svm.sv.None? || svm.sv.value != [])
    ensures r.Success? && svm.cosineScore.None? ==> r.value.0 == -1.0
    ensures r.Success? && svm.sv.None? ==> r.value.1 == ""
    ensures r.Success? && svm.cosineScore.Some? ==> r.value.0 == svm.cosineScore.value[0]
    ensures r.Success? && svm.sv.Some? ==> r.value.1 == svm.sv.value[0]
  {
    var scores := Or(svm.cosineScore, [-1.0]);
    var vars := Or(svm.sv, [""]);
    if scores == [] || vars == [] then Failure("list index out of range")
    else Success((scores[0], vars[0]))
  }

  /** `str(chart.get('highlight', {}).get('value', ''))`, the decoded value already in its text form. */
  function HighlightValue(c: Chart): string
  {
    if c.highlight.Some? then Or(c.highlight.value.value, "") else ""
  }

  function HighlightDate(c: Chart): Option<string>
  {
    if c.highlight.Some? then c.highlight.value.date else None
  }

  /** What `point` makes of a fetched response. */
  function PointOf(query: string, response: Result<ApiResponse>, roundFloat: string -> string): Result<Record>
  {
    if response.Failure? then Failure(response.error)
    else
      match FirstSeries(Or(response.value.charts, []))
      case None => Success(QueryOnly(query))
      case Some(c) =>
        var v := roundFloat(HighlightValue(c));
        if v == "" then Success(QueryOnly(query))
        else
          match Match(Matching(response.value))
          case Failure(e) => Failure(e)
          case Success(m) =>
            Success(Record(query, v, Or(c.unit, ""), Or(c.title, ""), HighlightDate(c), Src(c),
                           Or(c.dcUrl, ""), m.1, Some(m.0), "", 0, ""))
  }

  /** `DataCommons.point(query)`. */
  method Point(cfg: Config, svc: Services, query: string) returns (r: Result<Record>)
    ensures r == PointOf(query, svc.get(Url(cfg, query, PointParams)), svc.roundFloat)
  {
    var response := svc.get(Url(cfg, query, PointParams));
    if response.Failure? {
      return Failure(response.error);
    }
    var charts := Or(response.value.charts, []);
    var chart: Option<Chart> := None;
    var i := 0;
    while i < |charts|
      invariant i <= |charts|
      invariant FirstSeries(charts) == FirstSeries(charts[i..])
    {
      if IsSeries(charts[i]) {
        chart := Some(charts[i]);
        break;
      }
      assert charts[i..][1..] == charts[i + 1..];
      i := i + 1;
    }
    if chart.None? {
      return Success(QueryOnly(query));
    }
    var c := chart.value;
    var v := svc.roundFloat(HighlightValue(c));
    if v == "" {
      return Success(QueryOnly(query));
    }
    var svm := Matching(response.value);
    var scores := Or(svm.cosineScore, [-1.0]);
    var vars := Or(svm.sv, [""]);
    if scores == [] || vars == [] {
      return Failure("list index out of range");
    }
    r := Success(Record(query, v, Or(c.unit, ""), Or(c.title, ""), HighlightDate(c), Src(c),
                        Or(c.dcUrl, ""), vars[0], Some(scores[0]), "", 0, ""));
  }

  /**
   * A point record either carries a value or nothing fetched at all: with no series chart,
   * or a value that rounds to `""`, it is the bare query.
   */
  lemma PointEmptyValue(query: string, response: Result<ApiResponse>, roundFloat: string -> string)
    ensures var r := PointOf(query, response, roundFloat);
      r.Success? && r.value.val == "" ==> r.value == QueryOnly(query) && NoFetchedGroup(r.value)
    ensures response.Success? && FirstSeries(Or(response.value.charts, [])).None? ==>
      PointOf(query, response, roundFloat) == Success(QueryOnly(query))
  {
  }

  /**
   * A point record with a value comes from the first series chart: its rounded highlight
   * value, its unit, title, date, source and link, and the matched variable and score.
   */
  lemma PointFromFirstSeries(query: string, response: Result<ApiResponse>, roundFloat: string -> string)
    requires PointOf(query, response, roundFloat).Success?
    requires PointOf(query, response, roundFloat).value.val != ""
    ensures var r := PointOf(query, response, roundFloat).value;
      var charts := Or(response.value.charts, []);
      exists k :: FirstSeriesAt(charts, k)
        && r.val == roundFloat(HighlightValue(charts[k])) && r.unit == Or(charts[k].unit, "")
        && r.title == Or(charts[k].title, "") && r.date == HighlightDate(charts[k]) && r.src == Src(charts[k])
        && r.url == Or(charts[k].dcUrl, "")
    ensures var r := PointOf(query, response, roundFloat).value;
      r.query == query && r.score.Some? && r.table == "" && r.llmVal == ""
  {
  }

  /** The lines of the table: header, a rule as long as the header, the rounded rows, and a final `"\n"`. */
  function TableParts(rows: seq<seq<string>>, roundFloat: string -> string): (parts: seq<string>)
    requires rows != []
    ensures |parts| == |rows| + 2
    ensures parts[0] == Join(rows[0], " | ")
    ensures parts[1] == Repeat('-', |parts[0]|)
    ensures forall k :: 1 <= k < |rows| ==> parts[k + 1] == Join(RoundAll(rows[k], roundFloat), " | ")
    ensures parts[|parts| - 1] == "\n"
  {
    var header := Join(rows[0], " | ");
    [header, Repeat('-', |header|)]
      + seq(|rows| - 1, k requires 0 <= k < |rows| - 1 => Join(RoundAll(rows[k + 1], roundFloat), " | "))
      + ["\n"]
  }

  /** `[utils.round_float(v) for v in row]`. */
  function RoundAll(row: seq<string>, roundFloat: string -> string): (r: seq<string>)
    ensures |r| == |row| && forall k :: 0 <= k < |row| ==> r[k] == roundFloat(row[k])
  {
    seq(|row|, k requires 0 <= k < |row| => roundFloat(row[k]))
  }

  /** The table text: its lines joined by newlines, so it starts with the header and ends with a blank line. */
  lemma TableLayout(rows: seq<seq<string>>, roundFloat: string -> string)
    requires rows != []
    ensures var parts := TableParts(rows, roundFloat);
      var header := Join(rows[0], " | ");
      Join(parts, "\n") == header + "\n" + Join(parts[1..], "\n")
      && Join(parts[1..], "\n") == Repeat('-', |header|) + "\n" + Join(parts[2..], "\n")
      && EndsWith(Join(parts, "\n"), "\n\n")
  {
    var parts := TableParts(rows, roundFloat);
    JoinSnoc(parts, "\n");
  }

  /** The table's lines are determined line by line. */
  lemma TablePartsFromLines(rows: seq<seq<string>>, roundFloat: string -> string, parts: seq<string>)
    requires rows != [] && |parts| == |rows| + 2
    requires parts[0] == Join(rows[0], " | ") && parts[1] == Repeat('-', |parts[0]|)
    requires forall k :: 1 <= k < |rows| ==> parts[k + 1] == Join(RoundAll(rows[k], roundFloat), " | ")
    requires parts[|parts| - 1] == "\n"
    ensures parts == TableParts(rows, roundFloat)
  {
    var spec := TableParts(rows, roundFloat);
    forall k | 0 <= k < |parts|
      ensures parts[k] == spec[k]
    {
      if 2 <= k < |parts| - 1 {
        assert parts[(k - 1) + 1] == spec[(k - 1) + 1];
      }
    }
  }

  /** The `parts` loop of `table` and the final join. */
  method RenderTable(rows: seq<seq<string>>, roundFloat: string -> string) returns (table: string)
    requires rows != []
    ensures table == Join(TableParts(rows, roundFloat), "\n")
  {
    var parts: seq<string> := [];
    parts := parts + [Join(rows[0], " | ")];
    parts := parts + [Repeat('-', |parts[|parts| - 1]|)];
    for i := 1 to |rows|
      invariant |parts| == i + 1
      invariant parts[0] == Join(rows[0], " | ") && parts[1] == Repeat('-', |parts[0]|)
      invariant forall k :: 1 <= k < i ==> parts[k + 1] == Join(RoundAll(rows[k], roundFloat), " | ")
    {
      var row := RoundAll(rows[i], roundFloat);
      parts := parts + [Join(row, " | ")];
    }
    parts := parts + ["\n"];
    TablePartsFromLines(rows, roundFloat, parts);
    table := Join(parts, "\n");
  }

  /** What `table` makes of the first chart and its CSV rows. */
  function TableOf(query: string, response: Result<ApiResponse>, svc: Services): Result<Record>
  {
    if response.Failure? then Failure(response.error)
    else
      var charts := Or(response.value.charts, []);
      if charts == [] then Success(QueryOnly(query))
      else
        var c := charts[0];
        var csv := Or(c.dataCsv, "");
        var rows := svc.readCsv(csv);
        if csv == "" || rows == [] then Success(QueryOnly(query))
        else
          match Match(Matching(response.value))
          case Failure(e) => Failure(e)
          case Success(m) =>
            Success(Record(query, "", Or(c.unit, ""), Or(c.title, ""), None, Src(c), Or(c.dcUrl, ""),
                           m.1, Some(m.0), Join(TableParts(rows, svc.roundFloat), "\n"), 0, ""))
  }

  /** `DataCommons.table(query)`. */
  method Table(cfg: Config, svc: Services, query: string) returns (r: Result<Record>)
    ensures r == TableOf(query, svc.get(Url(cfg, query, TableParams)), svc)
  {
    var response := svc.get(Url(cfg, query, TableParams));
    if response.Failure? {
      return Failure(response.error);
    }
    var charts := Or(response.value.charts, []);
    if charts == [] {
      return Success(QueryOnly(query));
    }
    var c := charts[0];
    var csv := Or(c.dataCsv, "");
    var rows := svc.readCsv(csv);
    if csv == "" || rows == [] {
      return Success(QueryOnly(query));
    }
    var table := RenderTable(rows, svc.roundFloat);
    var svm := Matching(response.value);
    var scores := Or(svm.cosineScore, [-1.0]);
    var vars := Or(svm.sv, [""]);
    if scores == [] || vars == [] {
      return Failure("list index out of range");
    }
    r := Success(Record(query, "", Or(c.unit, ""), Or(c.title, ""), None, Src(c), Or(c.dcUrl, ""),
                        vars[0], Some(scores[0]), table, 0, ""));
  }

  /** A table record without a table is the bare query: no charts, or an empty CSV. */
  lemma TableEmpty(query: string, response: Result<ApiResponse>, svc: Services)
    ensures var r := TableOf(query, response, svc);
      r.Success? && r.value.table == "" ==> r.value == QueryOnly(query)
    ensures response.Success? && Or(response.value.charts, []) == [] ==> TableOf(query, response, svc) == Success(QueryOnly(query))
    ensures response.Success? && Or(response.value.charts, []) != [] ==>
      var csv := Or(Or(response.value.charts, [])[0].dataCsv, "");
      (csv == "" || svc.readCsv(csv) == []) ==> TableOf(query, response, svc) == Success(QueryOnly(query))
  {
    var r := TableOf(query, response, svc);
    if r.Success? && r.value.table != "" {
      var rows := svc.readCsv(Or(Or(response.value.charts, [])[0].dataCsv, ""));
      TableLayout(rows, svc.roundFloat);
    }
  }

  /** Call k raised and no earlier one did. */
  predicate FirstFailureAt(outcomes: seq<Result<Record>>, k: int)
  {
    0 <= k < |outcomes| && outcomes[k].Failure? && forall j :: 0 <= j < k ==> outcomes[j].Success?
  }

  /** `[f.result() for f in futures]`: every result, or the first call's error in list order. */
  function Collect(outcomes: seq<Result<Record>>): (r: Result<seq<Record>>)
    ensures r.Failure? <==> exists k :: 0 <= k < |outcomes| && outcomes[k].Failure?
    ensures r.Success? ==> |r.value| == |outcomes| && forall k :: 0 <= k < |outcomes| ==> outcomes[k] == Success(r.value[k])
    ensures r.Failure? ==> exists k :: FirstFailureAt(outcomes, k) && outcomes[k].error == r.error
  {
    if outcomes == [] then Success([])
    else if outcomes[0].Failure? then Failure(outcomes[0].error)
    else
      var rest := Collect(outcomes[1..]);
      assert forall k :: 1 <= k < |outcomes| ==> outcomes[k] == outcomes[1..][k - 1];
      if rest.Failure? then
        assert exists k :: FirstFailureAt(outcomes, k) && outcomes[k].error == rest.error by {
          var k :| FirstFailureAt(outcomes[1..], k) && outcomes[1..][k].error == rest.error;
          assert FirstFailureAt(outcomes, k + 1);
        }
        Failure(rest.error)
      else Success([outcomes[0].value] + rest.value)
  }

  /** The first call that raised decides the error. */
  lemma CollectFails(outcomes: seq<Result<Record>>, i: nat)
    requires i < |outcomes| && outcomes[i].Failure?
    requires forall k :: 0 <= k < i ==> outcomes[k].Success?
    ensures Collect(outcomes) == Failure(outcomes[i].error)
  {
    var r := Collect(outcomes);
    var k :| FirstFailureAt(outcomes, k) && outcomes[k].error == r.error;
    assert k == i;
  }

  /** With no call raising, the results are the calls' values in order. */
  lemma CollectSucceeds(outcomes: seq<Result<Record>>, results: seq<Record>)
    requires |results| == |outcomes| && forall k :: 0 <= k < |outcomes| ==> outcomes[k] == Success(results[k])
    ensures Collect(outcomes) == Success(results)
  {
    var r := Collect(outcomes);
    assert r.Success? && r.value == results;
  }

  /** The loop over `enumerate(zip(queries, results))`: result i numbered i + 1, stored under its query. */
  function Numbered(queries: seq<string>, results: seq<Record>): (d: Dict<Record>)
    requires |results| == |queries|
    ensures Valid(d)
  {
    if queries == [] then Empty()
    else
      var n := |queries| - 1;
      Put(Numbered(queries[..n], results[..n]), queries[n], results[n].(id := n + 1))
  }


  /** The results of a list of calls read back in list order, stopping at the first that raised. */
  method Results(outcomes: seq<Result<Record>>) returns (r: Result<seq<Record>>)
    ensures r == Collect(outcomes)
  {
    var results: seq<Record> := [];
    for i := 0 to |outcomes|
      invariant |results| == i && forall k :: 0 <= k < i ==> outcomes[k] == Success(results[k])
    {
      if outcomes[i].Failure? {
        CollectFails(outcomes, i);
        return Failure(outcomes[i].error);
      }
      results := results + [outcomes[i].value];
    }
    CollectSucceeds(outcomes, results);
    r := Success(results);
  }

  /** `DataCommons.calln(queries, func)`, on either execution path. */
  method CallN(cfg: Config, queries: seq<string>, func: string -> Result<Record>) returns (r: Result<Dict<Record>>)
    ensures r == Batch(cfg, queries, func)
  {
    ghost var outcomes := seq(|queries|, k requires 0 <= k < |queries| => func(queries[k]));
    var results: seq<Record> := [];
    if cfg.numThreads == 1 {
      for i := 0 to |queries|
        invariant |results| == i && forall k :: 0 <= k < i ==> outcomes[k] == Success(results[k])
      {
        var res := func(queries[i]);
        if res.Failure? {
          CollectFails(outcomes, i);
          return Failure(res.error);
        }
        results := results + [res.value];
      }
      CollectSucceeds(outcomes, results);
    } else {
      if cfg.numThreads < 1 {
        return Failure(PoolSizeError);
      }
      var futures := seq(|queries|, k requires 0 <= k < |queries| => func(queries[k]));
      var collected := Results(futures);
      if collected.Failure? {
        return Failure(collected.error);
      }
      results := collected.value;
    }
    var q2resp := NumberResults(queries, results);
    r := Success(q2resp);
  }

  /** The numbering loop of `calln`: each result gets its position plus one and is stored under its query. */
  method NumberResults(queries: seq<string>, results: seq<Record>) returns (q2resp: Dict<Record>)
    requires |results| == |queries|
    ensures q2resp == Numbered(queries, results)
  {
    q2resp := Empty();
    for i := 0 to |queries|
      invariant q2resp == Numbered(queries[..i], results[..i])
    {
      assert queries[..i + 1][..i] == queries[..i] && results[..i + 1][..i] == results[..i];
      q2resp := Put(q2resp, queries[i], results[i].(id := i + 1));
    }
    assert queries[..|queries|] == queries && results[..|results|] == results;
  }

  /** No query of a batch is repeated. */
  predicate Distinct(queries: seq<string>)
  {
    forall i, j :: 0 <= i < j < |queries| ==> queries[i] != queries[j]
  }

  /** The mapping holds exactly the queries. */
  lemma {:induction false} NumberedKeys(queries: seq<string>, results: seq<Record>)
    requires |results| == |queries|
    ensures forall q :: q in Numbered(queries, results).vals <==> q in queries
  {
    if queries != [] {
      var n := |queries| - 1;
      NumberedKeys(queries[..n], results[..n]);
      assert queries == queries[..n] + [queries[n]];
    }
  }

  /** For distinct queries the mapping lists them in input order. */
  lemma {:induction false} NumberedOrder(queries: seq<string>, results: seq<Record>)
    requires |results| == |queries| && Distinct(queries)
    ensures Numbered(queries, results).keys == queries
  {
    if queries != [] {
      var n := |queries| - 1;
      var pre := Numbered(queries[..n], results[..n]);
      assert Distinct(queries[..n]);
      NumberedOrder(queries[..n], results[..n]);
      NumberedKeys(queries[..n], results[..n]);
      assert queries[n] !in queries[..n];
      assert queries[n] !in pre.vals;
      assert Numbered(queries, results) == Put(pre, queries[n], results[n].(id := n + 1));
      assert queries == queries[..n] + [queries[n]];
    }
  }

  /** The record of a query is the result at its last position i, numbered i + 1. */
  lemma {:induction false} NumberedIds(queries: seq<string>, results: seq<Record>, i: nat)
    requires |results| == |queries| && i < |queries|
    requires forall j :: i < j < |queries| ==> queries[j] != queries[i]
    ensures queries[i] in Numbered(queries, results).vals
    ensures Numbered(queries, results).vals[queries[i]] == results[i].(id := i + 1)
  {
    var n := |queries| - 1;
    if i < n {
      NumberedIds(queries[..n], results[..n], i);
    }
  }

  /** What `calln(queries, func)` returns: on success, a mapping over exactly the queries. */
  function Fetched(queries: seq<string>, func: string -> Result<Record>): (r: Result<Dict<Record>>)
    ensures r.Success? ==> Valid(r.value) && forall q :: q in r.value.vals <==> q in queries
  {
    var outcomes := seq(|queries|, k requires 0 <= k < |queries| => func(queries[k]));
    match Collect(outcomes)
    case Failure(e) => Failure(e)
    case Success(results) =>
      NumberedKeys(queries, results);
      Success(Numbered(queries, results))
  }

  /** The thread pool refuses a size below one before any call is made. */
  const PoolSizeError: string := "max_workers must be greater than 0"

  /** What `calln` returns: the pool-size check of the threaded path, then the fetched batch. */
  function Batch(cfg: Config, queries: seq<string>, func: string -> Result<Record>): Result<Dict<Record>>
  {
    if cfg.numThreads < 1 then Failure(PoolSizeError) else Fetched(queries, func)
  }

  /**
   * A pool size below one fails the whole batch whatever the queries; any other size
   * gives the same batch, run one by one or in threads.
   */
  lemma BatchPoolSize(cfg: Config, queries: seq<string>, func: string -> Result<Record>)
    ensures Batch(cfg, queries, func).Failure? <==>
      cfg.numThreads < 1 || exists k :: 0 <= k < |queries| && func(queries[k]).Failure?
    ensures cfg.numThreads < 1 ==> Batch(cfg, queries, func) == Failure(PoolSizeError)
    ensures cfg.numThreads >= 1 ==> Batch(cfg, queries, func) == Fetched(queries, func)
  {
    CallNResult(queries, func);
  }

  /**
   * `calln` fails exactly when one of the calls raises; otherwise it maps every query, in
   * input order when they are distinct, to its record numbered by its position.
   */
  lemma CallNResult(queries: seq<string>, func: string -> Result<Record>)
    ensures Fetched(queries, func).Failure? <==> exists k :: 0 <= k < |queries| && func(queries[k]).Failure?
    ensures Fetched(queries, func).Success? && Distinct(queries) ==>
      var d := Fetched(queries, func).value;
      d.keys == queries && forall i :: 0 <= i < |queries| ==> d.vals[queries[i]] == func(queries[i]).value.(id := i + 1)
  {
    var outcomes := seq(|queries|, k requires 0 <= k < |queries| => func(queries[k]));
    assert forall k :: 0 <= k < |queries| ==> outcomes[k] == func(queries[k]);
    var c := Collect(outcomes);
    if c.Success? && Distinct(queries) {
      NumberedOrder(queries, c.value);
      forall i | 0 <= i < |queries|
        ensures Numbered(queries, c.value).vals[queries[i]] == func(queries[i]).value.(id := i + 1)
      {
        NumberedIds(queries, c.value, i);
      }
    }
  }
}
