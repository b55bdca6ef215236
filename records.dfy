/** The values exchanged by the flow: one Data Commons lookup, one model call, one flow response. */
module Records {
  import opened Wrappers

  /**
   * A `DataCommonsCall`: the lookup `query`, what was fetched for it (an empty `val` means
   * no data was found), the citation fields, the sequence `id` shown in the rewritten
   * text, the model's claimed value `llmVal`, and the rendered `table` of the table lookup.
   */
  datatype Record = Record(
    query: string,
    val: string,
    unit: string,
    title: string,
    date: Option<string>,
    src: string,
    url: string,
    svVar: string,
    score: Option<real>,
    table: string,
    id: int,
    llmVal: string)

  /** `DataCommonsCall(query=query)`: a lookup that found nothing. */
  function QueryOnly(query: string): Record
  {
    Record(query, "", "", "", None, "", "", "", None, "", 0, "")
  }

  /** The record carries none of the fetched group (value, unit, title, date, source). */
  predicate NoFetchedGroup(r: Record)
  {
    r.val == "" && r.unit == "" && r.title == "" && r.date.None? && r.src == ""
  }

  /** One call of the language model; `response` is empty when the call failed. */
  datatype LlmCall = LlmCall(prompt: string, response: string, durationSecs: real, error: string)

  /** What a flow returns: the rewritten text, the footnote block, the model calls and the lookups used. */
  datatype FlowResponse = FlowResponse(
    mainText: string,
    footnotes: string,
    llmCalls: seq<LlmCall>,
    dcCalls: seq<Record>)
}
