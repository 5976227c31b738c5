/** The record and count facts proposed from merged evidence. */
module Facts {
  import opened Options
  import opened Investigation

  // ------------------------------------------------------- decimal numerals

  predicate IsDigit(c: char) { '0' <= c <= '9' }

  predicate Digits(s: string) { s != "" && forall i :: 0 <= i < |s| ==> IsDigit(s[i]) }

  function Digit(d: nat): (c: char)
    requires d < 10
    ensures IsDigit(c) && DigitValue(c) == d
  {
    "0123456789"[d]
  }

  function DigitValue(c: char): (d: nat)
    requires IsDigit(c)
    ensures d < 10
  {
    (c as int) - ('0' as int)
  }

  function Decimal(n: nat): (s: string)
    ensures Digits(s)
  {
    if n < 10 then [Digit(n)] else Decimal(n / 10) + [Digit(n % 10)]
  }

  /** An integer as the source prints it. */
  function Numeral(n: int): string { if n < 0 then "-" + Decimal(-n) else Decimal(n) }

  function Value(s: string): nat
    requires forall i :: 0 <= i < |s| ==> IsDigit(s[i])
  {
    if s == "" then 0 else 10 * Value(s[..|s| - 1]) + DigitValue(s[|s| - 1])
  }

  lemma {:induction false} DecimalValue(n: nat)
    ensures Value(Decimal(n)) == n
  {
    if n >= 10 {
      DecimalValue(n / 10);
      assert Decimal(n)[..|Decimal(n)| - 1] == Decimal(n / 10);
    }
  }

  // ---------------------------------------------------------------- printing

  function ToolName(tool: Tool): string {
    match tool
    case Logs => "query_error_logs"
    case Tickets => "search_tickets"
    case Knowledge => "search_knowledge"
  }

  const STEP := "步骤 "
  const LOG_ID := " 的日志 ID "
  const LOG_SAYS := " 记录错误类型 "
  const TICKET_ID := " 的工单 ID "
  const TICKET_SAYS := " 状态为 "

  function RecordText(id: string, says: string, step: string, number: string, value: string): string {
    STEP + (step + (id + (number + (says + (value + "。")))))
  }

  function CountText(step: string, tool: string, total: string): string {
    STEP + (step + (" 的 " + (tool + (" 返回 " + (total + " 条匹配记录。")))))
  }

  function LogFact(step: nat, id: int, errorType: string): string {
    RecordText(LOG_ID, LOG_SAYS, Decimal(step), Numeral(id), errorType)
  }

  function TicketFact(step: nat, id: int, status: string): string {
    RecordText(TICKET_ID, TICKET_SAYS, Decimal(step), Numeral(id), status)
  }

  function CountFact(step: nat, tool: Tool, total: int): string {
    CountText(Decimal(step), ToolName(tool), Numeral(total))
  }

  // --------------------------------------------------------- candidate facts

  const NO_FACTS := ["本次没有可逐条核验的工具记录。"]

  function RowFacts(o: Observation, rows: seq<Row>): seq<string> {
    if rows == [] then []
    else
      var row := rows[|rows| - 1];
      RowFacts(o, rows[..|rows| - 1])
      + if o.tool == Logs && row.id.Some? && row.errorType.Some? then
          [LogFact(o.step, row.id.value, row.errorType.value)]
        else if o.tool == Tickets && row.id.Some? && row.status.Some? then
          [TicketFact(o.step, row.id.value, row.status.value)]
        else []
  }

  function FirstTwo(rows: seq<Row>): seq<Row> { if |rows| <= 2 then rows else rows[..2] }

  /** Facts of one evidence record: of its first two rows, or the count when there are none. */
  function ItemFacts(o: Observation): seq<string> {
    if o.output.items == [] then [CountFact(o.step, o.tool, o.output.total)]
    else RowFacts(o, FirstTwo(o.output.items))
  }

  /** Facts of the records in order, until there are ten. */
  function Gather(evidence: seq<Observation>, facts: seq<string>): seq<string> {
    if evidence == [] then facts
    else
      var more := facts + ItemFacts(evidence[0]);
      if |more| >= 10 then more else Gather(evidence[1..], more)
  }

  function CandidateFacts(evidence: seq<Observation>): seq<string> {
    var facts := Gather(evidence, []);
    if facts == [] then NO_FACTS else if |facts| <= 10 then facts else facts[..10]
  }

  method CollectRows(o: Observation, rows: seq<Row>) returns (facts: seq<string>)
    ensures facts == RowFacts(o, rows)
  {
    hide LogFact, TicketFact;
    facts := [];
    for k := 0 to |rows|
      invariant facts == RowFacts(o, rows[..k])
    {
      assert rows[..k + 1][..k] == rows[..k];
      var row := rows[k];
      if o.tool == Logs {
        if row.id.Some? && row.errorType.Some? {
          facts := facts + [LogFact(o.step, row.id.value, row.errorType.value)];
        }
      } else if o.tool == Tickets {
        if row.id.Some? && row.status.Some? {
          facts := facts + [TicketFact(o.step, row.id.value, row.status.value)];
        }
      }
    }
    assert rows[..|rows|] == rows;
  }

  method CollectFacts(evidence: seq<Observation>) returns (facts: seq<string>)
    ensures facts == CandidateFacts(evidence)
  {
    hide RowFacts, CountFact, FirstTwo;
    facts := [];
    var i := 0;
    while i < |evidence|
      invariant i <= |evidence|
      invariant Gather(evidence, []) == Gather(evidence[i..], facts)
    {
      var o := evidence[i];
      var records := o.output.items;
      assert evidence[i..][0] == o && evidence[i..][1..] == evidence[i + 1..];
      ghost var before := facts;
      if records != [] {
        var more := CollectRows(o, FirstTwo(records));
        facts := facts + more;
      } else {
        facts := facts + [CountFact(o.step, o.tool, o.output.total)];
      }
      assert facts == before + ItemFacts(o);
      if |facts| >= 10 { break; }
      i := i + 1;
    }
    assert i == |evidence| ==> evidence[i..] == [];
    if facts == [] { return NO_FACTS; }
    if |facts| > 10 { facts := facts[..10]; }
  }
}
