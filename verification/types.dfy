/**
 * The message and session data model of the chat front-end: the author role,
 * the three kinds of message content (plain text, chart, image), messages and
 * sessions.
 */
module Types {
  import opened Wrappers

  /** Author of a message. The enumeration has exactly these two members. */
  datatype Role = User | Bot

  /** The string value each role member carries. */
  function RoleValue(r: Role): (v: string)
  {
    match r
    case User => "user"
    case Bot => "bot"
  }

  /** Reads a role back from its string value; every other string is not a role. */
  function ParseRole(v: string): (r: Option<Role>)
    ensures r.Some? <==> v == "user" || v == "bot"
    ensures r.Some? ==> RoleValue(r.value) == v
  {
    if v == "user" then Some(User)
    else if v == "bot" then Some(Bot)
    else None
  }

  /** The two role values are distinct strings, so a role is recovered from its value. */
  lemma RoleRoundTrip(r: Role)
    ensures ParseRole(RoleValue(r)) == Some(r)
    ensures r == User || r == Bot
  {
  }

  /** The three chart kinds a chart may have. */
  datatype ChartType = BarChart | PieChart | LineChart

  function ChartTypeName(k: ChartType): string
  {
    match k
    case BarChart => "bar"
    case PieChart => "pie"
    case LineChart => "line"
  }

  /** Reads a chart kind from its literal; anything but 'bar', 'pie' or 'line' is rejected. */
  function ParseChartType(s: string): (r: Option<ChartType>)
    ensures r.Some? <==> s == "bar" || s == "pie" || s == "line"
    ensures r.Some? ==> ChartTypeName(r.value) == s
  {
    if s == "bar" then Some(BarChart)
    else if s == "pie" then Some(PieChart)
    else if s == "line" then Some(LineChart)
    else None
  }

  lemma ChartTypeRoundTrip(k: ChartType)
    ensures ParseChartType(ChartTypeName(k)) == Some(k)
  {
  }

  /** One row of a chart's data series. Its fields are not interpreted by the core. */
  datatype Datum = Datum(raw: string)

  /**
   * A chart payload: its kind, a required title, the data rows, the key of the
   * plotted value, and an optional category-axis key and unit.
   */
  datatype ChartData = ChartData(
    chartType: ChartType,
    title: string,
    data: seq<Datum>,
    dataKey: string,
    xAxisKey: Option<string>,
    unit: Option<string>)

  /** An image payload: a self-describing data string and its alternative text. */
  datatype ImageData = ImageData(data: string, alt: string)

  /** Message content is exactly one of plain text, a chart or an image. */
  datatype Content =
    | Text(text: string)
    | Chart(chart: ChartData)
    | Image(image: ImageData)

  /**
   * The discriminating `type` tag a content value carries: 'chart' for a chart,
   * 'image' for an image, and no tag at all for plain text.
   */
  function ContentTag(c: Content): (t: Option<string>)
  {
    match c
    case Text(_) => None
    case Chart(_) => Some("chart")
    case Image(_) => Some("image")
  }

  /** The tag alone tells the three kinds of content apart. */
  lemma ContentTagDiscriminates(c: Content, d: Content)
    ensures ContentTag(c) == ContentTag(d) <==> (c.Text? && d.Text?) || (c.Chart? && d.Chart?) || (c.Image? && d.Image?)
    ensures ContentTag(c).None? <==> c.Text?
    ensures ContentTag(c) == Some("chart") <==> c.Chart?
    ensures ContentTag(c) == Some("image") <==> c.Image?
  {
  }

  /** One entry of a conversation log. */
  datatype Message = Message(id: string, role: Role, content: Content)

  /** One conversation: its id, title, chronological message log and language preference. */
  datatype Session = Session(id: string, title: string, messages: seq<Message>, language: string)
}
