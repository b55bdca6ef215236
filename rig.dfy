/**
 * The RIG flow (rig.py): ask the model, find its `[__DC__("QUERY") --> "CLAIM"]` spans,
 * fetch a point record per distinct query, optionally keep only the records a validator
 * accepts, and reconcile the text against them.
 */
module Rig {
  import opened Wrappers
  import opened Text
  import opened OrderedDict
  import opened Records
  import opened Markup
  import opened Reconcile
  import opened DataCommonsApi

  /**
   * `validate.run_validation`: the records it keeps (a sub-mapping of its input) and the
   * model calls it adds to `llm_calls`.
   */
  datatype Validator = Validator(keep: (string, Record) -> bool, calls: Dict<Record> -> seq<LlmCall>)

  /**
   * A `RIGFlow`: the model (`llm.query`), the in-context prompt template applied to the
   * question, the two switches, the validator, the Data Commons client and the record
   * formatting the reconciliation uses.
   */
  datatype Flow = Flow(
    llm: string -> LlmCall,
    inContextPrompt: string -> string,
    inContext: bool,
    validateResponses: bool,
    validator: Validator,
    client: Config,
    services: Services,
    format: Formatter)

  /** `data_fetcher.point` as the function handed to `calln`. */
  function PointFn(cfg: Config, svc: Services): string -> Result<Record>
  {
    q => PointOf(q, svc.get(Url(cfg, q, PointParams)), svc.roundFloat)
  }

  /** `q2resp` of `_call_dc`: the point records of the queries, or `{}` when the batch raised. */
  function FetchedOrEmpty(cfg: Config, svc: Services, queries: seq<string>): (d: Dict<Record>)
    ensures Valid(d) && forall q :: q in d.vals ==> q in queries
    ensures Batch(cfg, queries, PointFn(cfg, svc)).Failure? ==> d == Empty()
    ensures Batch(cfg, queries, PointFn(cfg, svc)).Success? ==>
      d == Batch(cfg, queries, PointFn(cfg, svc)).value && forall q :: q in d.vals <==> q in queries
  {
    match Batch(cfg, queries, PointFn(cfg, svc))
    case Success(m) => m
    case Failure(_) => Empty()
  }

  /** `_call_dc(llm_text)`, without its timing. */
  method CallDc(flow: Flow, text: string) returns (q2llmval: Dict<seq<string>>, q2resp: Dict<Record>)
    ensures q2llmval == Grouped(FindAll(text))
    ensures q2resp == FetchedOrEmpty(flow.client, flow.services, q2llmval.keys)
  {
    q2llmval := GroupClaims(FindAll(text));
    var fetched := CallN(flow.client, q2llmval.keys, PointFn(flow.client, flow.services));
    if fetched.Success? {
      q2resp := fetched.value;
    } else {
      q2resp := Empty();
    }
  }

  /** The grouping loop of `_call_dc`: each span's claim is appended to its query's list. */
  method GroupClaims(spans: seq<Span>) returns (q2llmval: Dict<seq<string>>)
    ensures q2llmval == Grouped(spans)
  {
    q2llmval := Empty();
    for i := 0 to |spans|
      invariant q2llmval == Grouped(spans[..i])
    {
      assert spans[..i + 1][..i] == spans[..i];
      var m := spans[i];
      q2llmval := Put(q2llmval, m.query, ClaimsSoFar(q2llmval, m.query) + [m.claim]);
    }
    assert spans[..|spans|] == spans;
  }

  /** The model's answer to the question, prompted in context or asked directly. */
  function Ask(flow: Flow, query: string): LlmCall
  {
    if flow.inContext then flow.llm(flow.inContextPrompt(query)) else flow.llm(query)
  }

  /** The records kept for reconciliation and the model calls made on the way. */
  function Checked(flow: Flow, first: LlmCall, q2resp: Dict<Record>): (r: (Dict<Record>, seq<LlmCall>))
    requires Valid(q2resp)
    ensures Valid(r.0) && forall q :: q in r.0.vals ==> q in q2resp.vals && r.0.vals[q] == q2resp.vals[q]
    ensures !flow.validateResponses ==> r == (q2resp, [first])
    ensures flow.validateResponses ==> r.1 == [first] + flow.validator.calls(q2resp)
    ensures flow.validateResponses ==>
      forall q :: q in r.0.vals <==> q in q2resp.vals && flow.validator.keep(q, q2resp.vals[q])
    ensures |r.1| >= 1 && r.1[0] == first
  {
    if flow.validateResponses then (Filter(q2resp, flow.validator.keep), [first] + flow.validator.calls(q2resp))
    else (q2resp, [first])
  }

  /** The claims to reconcile for a model answer and the records kept for it. */
  function ItemsFor(text: string, q2resp: Dict<Record>): seq<Item>
    requires forall q :: q in q2resp.keys ==> q in q2resp.vals && q in Grouped(FindAll(text)).keys
  {
    var q2llmval := Grouped(FindAll(text));
    Items(q2resp.keys, q2resp.vals, q2llmval.vals)
  }

  /** What `RIGFlow.query(query)` returns. */
  function Respond(flow: Flow, query: string): FlowResponse
  {
    var first := Ask(flow, query);
    if first.response == "" then FlowResponse("", "", [first], [])
    else
      var text := first.response;
      var q2llmval := Grouped(FindAll(text));
      var checked := Checked(flow, first, FetchedOrEmpty(flow.client, flow.services, q2llmval.keys));
      var items := ItemsFor(text, checked.0);
      FlowResponse(Rewritten(text, items, flow.format), Join(Footnotes(NotesOf(items, flow.format)), "\n"),
                   checked.1, CallsOf(items))
  }

  /** `RIGFlow.query(query)`, without logging and timing. */
  method Query(flow: Flow, query: string) returns (resp: FlowResponse)
    ensures resp == Respond(flow, query)
  {
    var first: LlmCall;
    if flow.inContext {
      first := flow.llm(flow.inContextPrompt(query));
    } else {
      first := flow.llm(query);
    }
    if first.response == "" {
      return FlowResponse("", "", [first], []);
    }
    var text := first.response;
    var q2llmval, q2resp := CallDc(flow, text);
    var llmCalls := [first];
    if flow.validateResponses {
      llmCalls := llmCalls + flow.validator.calls(q2resp);
      q2resp := Filter(q2resp, flow.validator.keep);
    }
    var out, footnotes, dcCalls := Evaluate(text, q2llmval, q2resp, flow.format);
    resp := FlowResponse(out, Join(footnotes, "\n"), llmCalls, dcCalls);
  }

  /** An empty model answer ends the flow with that one call: nothing is fetched or rewritten. */
  lemma EmptyAnswer(flow: Flow, query: string)
    requires Ask(flow, query).response == ""
    ensures Respond(flow, query) == FlowResponse("", "", [Ask(flow, query)], [])
  {
  }

  /** When the batch fetch raises, the answer comes back as it was, with no footnotes and no records. */
  lemma FetchFailureKeepsText(flow: Flow, query: string)
    requires Ask(flow, query).response != ""
    requires Batch(flow.client, Grouped(FindAll(Ask(flow, query).response)).keys, PointFn(flow.client, flow.services)).Failure?
    ensures var r := Respond(flow, query);
      r.mainText == Ask(flow, query).response && r.footnotes == "" && r.dcCalls == []
  {
  }

  /** An answer without markup comes back as it was, with no footnotes and no records. */
  lemma NoMarkupKeepsText(flow: Flow, query: string)
    requires Ask(flow, query).response != ""
    requires FindAll(Ask(flow, query).response) == []
    ensures var r := Respond(flow, query);
      r.mainText == Ask(flow, query).response && r.footnotes == "" && r.dcCalls == []
  {
    var first := Ask(flow, query);
    var text := first.response;
    var q2llmval := Grouped(FindAll(text));
    assert q2llmval.keys == [];
    var checked := Checked(flow, first, FetchedOrEmpty(flow.client, flow.services, q2llmval.keys));
    assert checked.0.keys == [];
    var items := ItemsFor(text, checked.0);
    assert items == [];
    assert Respond(flow, query) == FlowResponse(text, Join(Footnotes(NotesOf(items, flow.format)), "\n"), checked.1, CallsOf(items));
  }

  /**
   * With every fetch succeeding and no validation, every span found in the answer yields
   * one record, and the records are numbered 1, 2, ... in order.
   */
  lemma EveryClaimNumbered(flow: Flow, query: string)
    requires Ask(flow, query).response != "" && !flow.validateResponses
    requires Batch(flow.client, Grouped(FindAll(Ask(flow, query).response)).keys, PointFn(flow.client, flow.services)).Success?
    ensures var r := Respond(flow, query);
      |r.dcCalls| == |FindAll(Ask(flow, query).response)|
      && forall k :: 0 <= k < |r.dcCalls| ==> r.dcCalls[k].id == k + 1
  {
    var text := Ask(flow, query).response;
    var spans := FindAll(text);
    var q2llmval := Grouped(spans);
    var q2resp := FetchedOrEmpty(flow.client, flow.services, q2llmval.keys);
    assert Distinct(q2llmval.keys);
    CallNResult(q2llmval.keys, PointFn(flow.client, flow.services));
    BatchPoolSize(flow.client, q2llmval.keys, PointFn(flow.client, flow.services));
    assert q2resp.keys == q2llmval.keys;
    var items := ItemsFor(text, q2resp);
    var calls := CallsOf(items);
    assert Respond(flow, query).dcCalls == calls;
    ItemsCount(q2resp.keys, q2resp.vals, q2llmval.vals);
    GroupedCount(spans);
  }
}
