/** The payload and message shapes the chat front-end exchanges. */
module Models {
  import opened Wrappers

  /** An element of an untyped (`any[]`) data array; the renderer only forwards these. */
  datatype Datum = Number(n: int) | Str(s: string)

  /** The `chartType` discriminator; `Other` is any tag the payload carries outside the declared six. */
  datatype ChartType = Bar | Line | MultiLine | Pie | Bubble | Scatter | Other(tag: string)

  /** One entry of `series`; each field may be absent from the JSON. */
  datatype Series = Series(
    name: Option<string>,
    x: Option<seq<Datum>>,
    y: Option<seq<Datum>>,
    labels: Option<seq<string>>)

  /** `graphData`: a tag plus fields whose presence depends on the tag (none is validated). */
  datatype GraphData = GraphData(
    chartType: ChartType,
    x: Option<seq<Datum>>,
    y: Option<seq<Datum>>,
    values: Option<seq<Datum>>,
    sizes: Option<seq<Datum>>,
    labels: Option<seq<string>>,
    xLabel: Option<string>,
    yLabel: Option<string>,
    series: Option<seq<Series>>)

  datatype TableData = TableData(columns: seq<string>, rows: seq<seq<Datum>>)

  /** The body of a successful `/api/chat` reply. */
  datatype ChatResponse = ChatResponse(
    message: string,
    tableData: Option<TableData>,
    graphData: Option<GraphData>)

  /** One entry of the conversation; `timeTaken` is in milliseconds. */
  datatype ChatMessage = ChatMessage(
    text: string,
    isUser: bool,
    response: Option<ChatResponse>,
    timeTaken: Option<int>)

  /**
   * A failed HTTP call as the error callback sees it: the server's
   * `error.error.message` and the transport's `error.message`, each possibly absent.
   */
  datatype HttpError = HttpError(serverMessage: Option<string>, message: Option<string>)
}
