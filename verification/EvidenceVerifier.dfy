/** The rule verifier: facts are parsed back and certified only against the records they name. */
module EvidenceVerifier {
  import opened Options
  import opened Investigation
  import opened Facts

  // ----------------------------------------------------------------- parsing

  /** The two kinds of record facts and the count fact, with their parts. */
  datatype Parsed =
    | Counted(step: nat, tool: string, total: nat)
    | LogRecord(step: nat, id: nat, value: string)
    | TicketRecord(step: nat, id: nat, value: string)
    | Unmatched

  predicate IsWord(c: char) { IsDigit(c) || 'a' <= c <= 'z' || 'A' <= c <= 'Z' || c == '_' }

  predicate Words(s: string) { s != "" && forall i :: 0 <= i < |s| ==> IsWord(s[i]) }

  /** What `.+` accepts. */
  predicate Line(s: string) { s != "" && '\n' !in s }

  /** The text after a literal. */
  function Cut(literal: string, text: string): Option<string> {
    if literal <= text then Some(text[|literal|..]) else None
  }

  /** The longest run of characters of a class at the start of `text`, and what follows it. */
  function Run(text: string, class_: char -> bool): (r: (string, string))
    ensures r.0 + r.1 == text
    ensures forall i :: 0 <= i < |r.0| ==> class_(r.0[i])
    ensures r.1 != "" ==> !class_(r.1[0])
  {
    if text == "" || !class_(text[0]) then ("", text)
    else
      var (run, rest) := Run(text[1..], class_);
      ([text[0]] + run, rest)
  }

  function ParseStep(text: string): Option<(nat, string)> {
    var a := Cut(STEP, text);
    if a.None? then None
    else
      var (step, rest) := Run(a.value, IsDigit);
      if step == "" then None else Some((Value(step), rest))
  }

  /** The pattern of a record fact after the step. */
  function ParseRecord(id: string, says: string, text: string): Option<(nat, string)> {
    var a := Cut(id, text);
    if a.None? then None
    else
      var (number, rest) := Run(a.value, IsDigit);
      var b := Cut(says, rest);
      if number == "" || b.None? || |b.value| < 2 then None
      else
        var value, last := b.value[..|b.value| - 1], b.value[|b.value| - 1];
        if last == '。' && Line(value) then Some((Value(number), value)) else None
  }

  function ParseCount(text: string): Option<(string, nat)> {
    var a := Cut(" 的 ", text);
    if a.None? then None
    else
      var (tool, rest) := Run(a.value, IsWord);
      var b := Cut(" 返回 ", rest);
      if tool == "" || b.None? then None
      else
        var (total, tail) := Run(b.value, IsDigit);
        if total == "" || tail != " 条匹配记录。" then None else Some((tool, Value(total)))
  }

  function Parse(text: string): Parsed {
    var s := ParseStep(text);
    if s.None? then Unmatched
    else
      var (step, rest) := s.value;
      var count, log, ticket :=
        ParseCount(rest), ParseRecord(LOG_ID, LOG_SAYS, rest), ParseRecord(TICKET_ID, TICKET_SAYS, rest);
      if count.Some? then Counted(step, count.value.0, count.value.1)
      else if log.Some? then LogRecord(step, log.value.0, log.value.1)
      else if ticket.Some? then TicketRecord(step, ticket.value.0, ticket.value.1)
      else Unmatched
  }

  // ----------------------------------------------- the patterns they stand for

  /** The text matches the whole pattern with these parts. */
  ghost predicate IsRecord(text: string, id: string, says: string, step: nat, number: nat, value: string) {
    exists s: string, n: string :: Digits(s) && Digits(n) && Line(value) && Value(s) == step && Value(n) == number
      && text == RecordText(id, says, s, n, value)
  }

  ghost predicate IsCount(text: string, step: nat, tool: string, total: nat) {
    exists s: string, n: string :: Digits(s) && Digits(n) && Words(tool) && Value(s) == step && Value(n) == total
      && text == CountText(s, tool, n)
  }

  lemma CutLiteral(literal: string, rest: string)
    ensures Cut(literal, literal + rest) == Some(rest)
  {
  }

  lemma {:induction false} RunIsLongest(run: string, rest: string, class_: char -> bool)
    requires forall i :: 0 <= i < |run| ==> class_(run[i])
    requires rest == "" || !class_(rest[0])
    ensures Run(run + rest, class_) == (run, rest)
  {
    if run == "" {
      assert run + rest == rest;
    } else {
      assert (run + rest)[1..] == run[1..] + rest;
      RunIsLongest(run[1..], rest, class_);
      assert [run[0]] + run[1..] == run;
    }
  }

  lemma StepParsed(s: string, rest: string)
    requires Digits(s) && rest != "" && !IsDigit(rest[0])
    ensures ParseStep(STEP + (s + rest)) == Some((Value(s), rest))
  {
    CutLiteral(STEP, s + rest);
    RunIsLongest(s, rest, IsDigit);
  }

  lemma RecordParsed(id: string, says: string, n: string, value: string)
    requires Digits(n) && Line(value) && says != "" && !IsDigit(says[0])
    ensures ParseRecord(id, says, id + (n + (says + (value + "。")))) == Some((Value(n), value))
  {
    CutLiteral(id, n + (says + (value + "。")));
    RunIsLongest(n, says + (value + "。"), IsDigit);
    CutLiteral(says, value + "。");
    assert (value + "。")[..|value|] == value;
  }

  lemma CountParsed(tool: string, n: string)
    requires Words(tool) && Digits(n)
    ensures ParseCount(" 的 " + (tool + (" 返回 " + (n + " 条匹配记录。")))) == Some((tool, Value(n)))
  {
    CutLiteral(" 的 ", tool + (" 返回 " + (n + " 条匹配记录。")));
    RunIsLongest(tool, " 返回 " + (n + " 条匹配记录。"), IsWord);
    CutLiteral(" 返回 ", n + " 条匹配记录。");
    RunIsLongest(n, " 条匹配记录。", IsDigit);
  }

  lemma CutSays(literal: string, text: string)
    requires Cut(literal, text).Some?
    ensures text == literal + Cut(literal, text).value
  {
  }

  lemma StepUnparsed(text: string) returns (s: string, rest: string)
    requires ParseStep(text).Some?
    ensures Digits(s) && text == STEP + (s + rest) && ParseStep(text) == Some((Value(s), rest))
  {
    CutSays(STEP, text);
    var (run, tail) := Run(Cut(STEP, text).value, IsDigit);
    s, rest := run, tail;
  }

  lemma RecordUnparsed(id: string, says: string, text: string) returns (n: string, value: string)
    requires ParseRecord(id, says, text).Some?
    ensures Digits(n) && Line(value) && text == id + (n + (says + (value + "。")))
    ensures ParseRecord(id, says, text) == Some((Value(n), value))
  {
    CutSays(id, text);
    var (number, rest) := Run(Cut(id, text).value, IsDigit);
    CutSays(says, rest);
    var b := Cut(says, rest).value;
    n, value := number, b[..|b| - 1];
    assert b == value + [b[|b| - 1]];
    assert "。" == [b[|b| - 1]];
  }

  lemma CountUnparsed(text: string) returns (tool: string, n: string)
    requires ParseCount(text).Some?
    ensures Words(tool) && Digits(n) && text == " 的 " + (tool + (" 返回 " + (n + " 条匹配记录。")))
    ensures ParseCount(text) == Some((tool, Value(n)))
  {
    CutSays(" 的 ", text);
    var (word, rest) := Run(Cut(" 的 ", text).value, IsWord);
    CutSays(" 返回 ", rest);
    var (total, tail) := Run(Cut(" 返回 ", rest).value, IsDigit);
    tool, n := word, total;
  }

  /** No text after a step fits two of the patterns. */
  lemma PatternsAreDisjoint(rest: string)
    ensures ParseCount(rest).Some? ==> ParseRecord(LOG_ID, LOG_SAYS, rest).None? && ParseRecord(TICKET_ID, TICKET_SAYS, rest).None?
    ensures ParseRecord(LOG_ID, LOG_SAYS, rest).Some? ==> ParseRecord(TICKET_ID, TICKET_SAYS, rest).None?
  {
    if LOG_ID <= rest { assert rest[2] == LOG_ID[2] == '日'; }
    if TICKET_ID <= rest { assert rest[2] == TICKET_ID[2] == '工'; }
    if " 的 " <= rest { assert rest[2] == " 的 "[2] == ' '; }
  }

  /** Parsing gives a record fact exactly when the text as a whole fits its pattern with those parts. */
  lemma ParseIsRecord(text: string, number: nat, step: nat, value: string)
    ensures Parse(text) == LogRecord(step, number, value) <==> IsRecord(text, LOG_ID, LOG_SAYS, step, number, value)
    ensures Parse(text) == TicketRecord(step, number, value) <==>
            IsRecord(text, TICKET_ID, TICKET_SAYS, step, number, value)
  {
    hide ParseStep, ParseRecord, ParseCount, Value;
    if ParseStep(text).Some? {
      var s, rest := StepUnparsed(text);
      PatternsAreDisjoint(rest);
      if ParseRecord(LOG_ID, LOG_SAYS, rest).Some? {
        var n, v := RecordUnparsed(LOG_ID, LOG_SAYS, rest);
        assert text == RecordText(LOG_ID, LOG_SAYS, s, n, v);
      }
      if ParseRecord(TICKET_ID, TICKET_SAYS, rest).Some? {
        var n, v := RecordUnparsed(TICKET_ID, TICKET_SAYS, rest);
        assert text == RecordText(TICKET_ID, TICKET_SAYS, s, n, v);
      }
    }
    if IsRecord(text, LOG_ID, LOG_SAYS, step, number, value) {
      RecordIsParsed(text, LOG_ID, LOG_SAYS, step, number, value);
    }
    if IsRecord(text, TICKET_ID, TICKET_SAYS, step, number, value) {
      RecordIsParsed(text, TICKET_ID, TICKET_SAYS, step, number, value);
    }
  }

  lemma RecordIsParsed(text: string, id: string, says: string, step: nat, number: nat, value: string)
    requires IsRecord(text, id, says, step, number, value)
    requires (id == LOG_ID && says == LOG_SAYS) || (id == TICKET_ID && says == TICKET_SAYS)
    ensures Parse(text) == if id == LOG_ID then LogRecord(step, number, value) else TicketRecord(step, number, value)
  {
    hide ParseStep, ParseRecord, ParseCount, Value, Line;
    var s: string, n: string :| Digits(s) && Digits(n) && Line(value) && Value(s) == step && Value(n) == number
                                && text == RecordText(id, says, s, n, value);
    var rest := id + (n + (says + (value + "。")));
    assert id != TICKET_ID ==> id == LOG_ID;
    assert rest[0] == id[0] == ' ';
    StepParsed(s, rest);
    RecordParsed(id, says, n, value);
    PatternsAreDisjoint(rest);
  }

  lemma ParseIsCount(text: string, step: nat, tool: string, total: nat)
    ensures Parse(text) == Counted(step, tool, total) <==> IsCount(text, step, tool, total)
  {
    hide ParseStep, ParseRecord, ParseCount, Value;
    if ParseStep(text).Some? {
      var s, rest := StepUnparsed(text);
      if ParseCount(rest).Some? {
        var w, n := CountUnparsed(rest);
        assert text == CountText(s, w, n);
      }
    }
    if IsCount(text, step, tool, total) {
      var s: string, n: string :| Digits(s) && Digits(n) && Words(tool) && Value(s) == step && Value(n) == total
                                  && text == CountText(s, tool, n);
      StepParsed(s, " 的 " + (tool + (" 返回 " + (n + " 条匹配记录。"))));
      CountParsed(tool, n);
    }
  }

  // ---------------------------------------------------------------- judging

  datatype Kind = Fact | Hypothesis

  datatype Support = Supported | Unsupported | Unverified

  datatype VerifiedClaim = VerifiedClaim(number: nat, kind: Kind, text: string, evidence: seq<EvidenceId>, support: Support)

  datatype Report = Report(claims: seq<VerifiedClaim>) | TimedOut | TooManyClaims

  const MAX_CLAIMS := 15

  /** The last record with a step, as a lookup by step finds it. */
  function ByStep(evidence: seq<Observation>, step: nat): Option<Observation> {
    if evidence == [] then None
    else if evidence[|evidence| - 1].step == step then Some(evidence[|evidence| - 1])
    else ByStep(evidence[..|evidence| - 1], step)
  }

  predicate HasLogRow(o: Observation, id: nat, errorType: string) {
    exists i :: 0 <= i < |o.output.items| && o.output.items[i].id == Some(id)
      && o.output.items[i].errorType == Some(errorType) && o.output.items[i].service == Some(o.service)
  }

  predicate HasTicketRow(o: Observation, id: nat, status: string) {
    exists i :: 0 <= i < |o.output.items| && o.output.items[i].id == Some(id)
      && o.output.items[i].status == Some(status) && o.output.items[i].service == Some(o.service)
  }

  /** Whether a parsed fact agrees with the record of its step. */
  predicate Valid(p: Parsed, evidence: seq<Observation>) {
    match p
    case Unmatched => false
    case Counted(step, tool, total) =>
      var o := ByStep(evidence, step);
      o.Some? && ToolName(o.value.tool) == tool && o.value.output.total == total
    case LogRecord(step, id, value) =>
      var o := ByStep(evidence, step);
      o.Some? && o.value.tool == Logs && HasLogRow(o.value, id, value)
    case TicketRecord(step, id, value) =>
      var o := ByStep(evidence, step);
      o.Some? && o.value.tool == Tickets && HasTicketRow(o.value, id, value)
  }

  function Judge(number: nat, text: string, evidence: seq<Observation>): VerifiedClaim {
    var p := Parse(text);
    if p == Unmatched then VerifiedClaim(number, Fact, text, [], Unsupported)
    else
      var o := ByStep(evidence, p.step);
      VerifiedClaim(number, Fact, text, if o.Some? then [o.value.id] else [],
            if Valid(p, evidence) then Supported else Unsupported)
  }

  /** The report on these texts when no deadline passes. */
  function Judged(facts: seq<string>, hypotheses: seq<string>, evidence: seq<Observation>): (r: seq<VerifiedClaim>)
    ensures |r| == |facts| + |hypotheses|
  {
    seq(|facts| + |hypotheses|, i requires 0 <= i < |facts| + |hypotheses| =>
      if i < |facts| then Judge(i + 1, facts[i], evidence)
      else VerifiedClaim(i + 1, Hypothesis, hypotheses[i - |facts|], [], Unverified))
  }

  /** The verifier's loops; `late(i)` says whether the deadline has passed before text `i`. */
  method Verify(facts: seq<string>, hypotheses: seq<string>, evidence: seq<Observation>, late: nat -> bool)
    returns (report: Report)
    ensures report.TimedOut? ==> exists i: nat :: i <= MAX_CLAIMS && late(i)
    ensures report.TooManyClaims? ==> |facts| + |hypotheses| > MAX_CLAIMS
    ensures report.Report? ==> report.claims == Judged(facts, hypotheses, evidence)
    ensures report.Report? <==>
            |facts| + |hypotheses| <= MAX_CLAIMS && forall i: nat :: i < |facts| + |hypotheses| ==> !late(i)
  {
    var claims: seq<VerifiedClaim> := [];
    ghost var all := Judged(facts, hypotheses, evidence);
    for i := 0 to |facts|
      invariant |claims| == i && i <= MAX_CLAIMS && claims == all[..i]
      invariant forall k: nat :: k < i ==> !late(k)
    {
      if late(|claims|) { return TimedOut; }
      if |claims| >= MAX_CLAIMS { return TooManyClaims; }
      claims := claims + [Judge(|claims| + 1, facts[i], evidence)];
    }
    for i := 0 to |hypotheses|
      invariant |claims| == |facts| + i && |claims| <= MAX_CLAIMS && claims == all[..|claims|]
      invariant forall k: nat :: k < |claims| ==> !late(k)
    {
      if late(|claims|) { return TimedOut; }
      if |claims| >= MAX_CLAIMS { return TooManyClaims; }
      claims := claims + [VerifiedClaim(|claims| + 1, Hypothesis, hypotheses[i], [], Unverified)];
    }
    return Report(claims);
  }

  // ------------------------------------------------------- print, then parse

  ghost predicate Stepped(evidence: seq<Observation>) {
    forall i :: 0 <= i < |evidence| ==> evidence[i].step == i + 1
  }

  lemma {:induction false} ByStepFinds(evidence: seq<Observation>, step: nat)
    requires Stepped(evidence)
    ensures ByStep(evidence, step) ==
            if 1 <= step <= |evidence| then Some(evidence[step - 1]) else None
  {
    if evidence != [] { ByStepFinds(evidence[..|evidence| - 1], step); }
  }

  /** A printed record is read back exactly when its id is natural and its value is a non-empty line. */
  lemma PrintedRecordParses(id: string, says: string, step: nat, x: int, value: string)
    requires (id == LOG_ID && says == LOG_SAYS) || (id == TICKET_ID && says == TICKET_SAYS)
    ensures var text := RecordText(id, says, Decimal(step), Numeral(x), value);
      Parse(text) ==
        if x < 0 || !Line(value) then Unmatched
        else if id == LOG_ID then LogRecord(step, x, value)
        else TicketRecord(step, x, value)
  {
    hide ParseStep, ParseRecord, ParseCount, Value, Decimal;
    var rest := id + (Numeral(x) + (says + (value + "。")));
    assert rest[0] == id[0] == ' ';
    StepParsed(Decimal(step), rest);
    DecimalValue(step);
    assert id != LOG_ID ==> id == TICKET_ID;
    assert rest[2] == id[2];
    assert ParseCount(rest).None? by { assert !(" 的 " <= rest); NoCut(rest); }
    OtherPattern(id, rest);
    if x < 0 {
      NegativeIsUnread(id, says, x, says + (value + "。"));
    } else {
      DecimalValue(x);
      if Line(value) {
        RecordParsed(id, says, Decimal(x), value);
      } else {
        BadLineIsUnread(id, says, Decimal(x), value);
      }
    }
  }

  lemma NoCut(rest: string)
    requires !(" 的 " <= rest)
    ensures ParseCount(rest).None?
  {
  }

  lemma OtherPattern(id: string, rest: string)
    requires (id == LOG_ID || id == TICKET_ID) && |rest| > 2 && rest[2] == id[2]
    ensures id == LOG_ID ==> ParseRecord(TICKET_ID, TICKET_SAYS, rest).None?
    ensures id == TICKET_ID ==> ParseRecord(LOG_ID, LOG_SAYS, rest).None?
  {
    if LOG_ID <= rest { assert rest[2] == LOG_ID[2] == '日'; }
    if TICKET_ID <= rest { assert rest[2] == TICKET_ID[2] == '工'; }
  }

  lemma NegativeIsUnread(id: string, says: string, x: int, tail: string)
    requires x < 0
    ensures ParseRecord(id, says, id + (Numeral(x) + tail)).None?
  {
    hide Decimal;
    CutLiteral(id, Numeral(x) + tail);
    assert (Numeral(x) + tail)[0] == '-';
  }

  lemma BadLineIsUnread(id: string, says: string, n: string, value: string)
    requires Digits(n) && !Line(value) && says != "" && !IsDigit(says[0])
    ensures ParseRecord(id, says, id + (n + (says + (value + "。")))).None?
  {
    CutLiteral(id, n + (says + (value + "。")));
    RunIsLongest(n, says + (value + "。"), IsDigit);
    CutLiteral(says, value + "。");
    assert (value + "。")[..|value|] == value;
  }

  lemma PrintedCountParses(step: nat, tool: Tool, total: int)
    ensures Parse(CountFact(step, tool, total)) ==
            if total < 0 then Unmatched else Counted(step, ToolName(tool), total)
  {
    hide ParseStep, ParseRecord, ParseCount, Value, Decimal;
    var rest := " 的 " + (ToolName(tool) + (" 返回 " + (Numeral(total) + " 条匹配记录。")));
    assert rest[0] == ' ' && rest[2] == ' ';
    StepParsed(Decimal(step), rest);
    DecimalValue(step);
    assert Words(ToolName(tool)) by { ToolIsWord(tool); }
    NoRecord(rest);
    if total >= 0 {
      DecimalValue(total);
      CountParsed(ToolName(tool), Decimal(total));
    } else {
      NegativeCountIsUnread(ToolName(tool), total);
    }
  }

  lemma NoRecord(rest: string)
    requires |rest| > 2 && rest[2] == ' '
    ensures ParseRecord(LOG_ID, LOG_SAYS, rest).None? && ParseRecord(TICKET_ID, TICKET_SAYS, rest).None?
  {
    CutShows(LOG_ID, rest, 2);
    CutShows(TICKET_ID, rest, 2);
  }

  lemma CutShows(literal: string, text: string, i: nat)
    requires i < |literal| && i < |text|
    ensures Cut(literal, text).Some? ==> text[i] == literal[i]
  {
  }

  lemma ToolIsWord(tool: Tool)
    ensures Words(ToolName(tool))
  {
    match tool
    case Logs =>
    case Tickets =>
    case Knowledge =>
  }

  lemma NegativeCountIsUnread(tool: string, total: int)
    requires Words(tool) && total < 0
    ensures ParseCount(" 的 " + (tool + (" 返回 " + (Numeral(total) + " 条匹配记录。")))).None?
  {
    hide Decimal;
    var tail := Numeral(total) + " 条匹配记录。";
    CutLiteral(" 的 ", tool + (" 返回 " + tail));
    RunIsLongest(tool, " 返回 " + tail, IsWord);
    CutLiteral(" 返回 ", tail);
    assert tail[0] == '-';
  }

  // --------------------------------------------------------- main statements

  /** A fact printed from a log row of the evidence is certified exactly when the id is natural and the error type
      is a non-empty line. */
  lemma LogFactRoundTrip(number: nat, evidence: seq<Observation>, k: nat, i: nat)
    requires Stepped(evidence) && k < |evidence| && evidence[k].tool == Logs && i < |evidence[k].output.items|
    requires var row := evidence[k].output.items[i];
      row.id.Some? && row.errorType.Some? && row.service == Some(evidence[k].service)
    ensures var row := evidence[k].output.items[i];
      Judge(number, LogFact(k + 1, row.id.value, row.errorType.value), evidence).support == Supported
      <==> row.id.value >= 0 && Line(row.errorType.value)
  {
    hide RecordText, Line;
    var row := evidence[k].output.items[i];
    PrintedRecordParses(LOG_ID, LOG_SAYS, k + 1, row.id.value, row.errorType.value);
    ByStepFinds(evidence, k + 1);
    assert row.id.value >= 0 ==> HasLogRow(evidence[k], row.id.value, row.errorType.value);
  }

  lemma TicketFactRoundTrip(number: nat, evidence: seq<Observation>, k: nat, i: nat)
    requires Stepped(evidence) && k < |evidence| && evidence[k].tool == Tickets && i < |evidence[k].output.items|
    requires var row := evidence[k].output.items[i];
      row.id.Some? && row.status.Some? && row.service == Some(evidence[k].service)
    ensures var row := evidence[k].output.items[i];
      Judge(number, TicketFact(k + 1, row.id.value, row.status.value), evidence).support == Supported
      <==> row.id.value >= 0 && Line(row.status.value)
  {
    hide RecordText, Line;
    var row := evidence[k].output.items[i];
    PrintedRecordParses(TICKET_ID, TICKET_SAYS, k + 1, row.id.value, row.status.value);
    ByStepFinds(evidence, k + 1);
    assert row.id.value >= 0 ==> HasTicketRow(evidence[k], row.id.value, row.status.value);
  }

  lemma CountFactRoundTrip(number: nat, evidence: seq<Observation>, k: nat)
    requires Stepped(evidence) && k < |evidence|
    ensures Judge(number, CountFact(k + 1, evidence[k].tool, evidence[k].output.total), evidence).support == Supported
      <==> evidence[k].output.total >= 0
  {
    hide CountFact;
    PrintedCountParses(k + 1, evidence[k].tool, evidence[k].output.total);
    ByStepFinds(evidence, k + 1);
  }

  /** Every certified text, wherever it comes from, is one of the three patterns and names a record of the evidence
      that says the same: a row of that id, value and service, or the count of that tool. */
  lemma SupportedMeansRecorded(number: nat, text: string, evidence: seq<Observation>)
    requires Stepped(evidence) && Judge(number, text, evidence).support == Supported
    ensures exists k :: 0 <= k < |evidence| && Certifies(evidence[k], text)
                        && Judge(number, text, evidence).evidence == [evidence[k].id]
  {
    hide Parse;
    var p := Parse(text);
    ByStepFinds(evidence, p.step);
    var o := evidence[p.step - 1];
    match p
    case Counted(step, tool, total) => ParseIsCount(text, step, tool, total);
    case LogRecord(step, id, value) => ParseIsRecord(text, id, step, value);
    case TicketRecord(step, id, value) => ParseIsRecord(text, id, step, value);
    assert Certifies(o, text);
  }

  /** The text says of the record what the record says. */
  ghost predicate Certifies(o: Observation, text: string) {
    || (exists total: nat :: IsCount(text, o.step, ToolName(o.tool), total) && o.output.total == total)
    || (o.tool == Logs
        && exists id: nat, value: string :: IsRecord(text, LOG_ID, LOG_SAYS, o.step, id, value) && HasLogRow(o, id, value))
    || (o.tool == Tickets
        && exists id: nat, value: string ::
             IsRecord(text, TICKET_ID, TICKET_SAYS, o.step, id, value) && HasTicketRow(o, id, value))
  }

  /** What printing needs of a record to be read back: natural numbers and values that are non-empty lines. */
  predicate Printable(o: Observation) {
    if o.output.items == [] then o.output.total >= 0
    else forall i :: 0 <= i < |FirstTwo(o.output.items)| ==> PrintableRow(o.tool, o.output.items[i])
  }

  predicate PrintableRow(tool: Tool, row: Row) {
    && (tool == Logs && row.id.Some? && row.errorType.Some? ==> row.id.value >= 0 && Line(row.errorType.value))
    && (tool == Tickets && row.id.Some? && row.status.Some? ==> row.id.value >= 0 && Line(row.status.value))
  }

  /** Printable, and in the scope of its service. */
  predicate Certifiable(o: Observation) { Printable(o) && RecordsMatchScope(o.tool, o.service, o.output) }

  ghost predicate AllSupported(facts: seq<string>, evidence: seq<Observation>) {
    forall i, n :: 0 <= i < |facts| && 0 <= n ==> Judge(n, facts[i], evidence).support == Supported
  }

  lemma {:induction false} RowFactsSupported(evidence: seq<Observation>, k: nat, n: nat)
    requires Stepped(evidence) && k < |evidence| && Printable(evidence[k])
    requires RecordsMatchScope(evidence[k].tool, evidence[k].service, evidence[k].output)
    requires n <= |FirstTwo(evidence[k].output.items)|
    ensures AllSupported(RowFacts(evidence[k], evidence[k].output.items[..n]), evidence)
  {
    hide Judge, LogFact, TicketFact;
    if n > 0 {
      RowFactsSupported(evidence, k, n - 1);
      var items := evidence[k].output.items;
      assert items[..n][..n - 1] == items[..n - 1];
      var row := items[n - 1];
      if evidence[k].tool == Logs && row.id.Some? && row.errorType.Some? {
        var fact := LogFact(k + 1, row.id.value, row.errorType.value);
        forall number: nat ensures Judge(number, fact, evidence).support == Supported {
          LogFactRoundTrip(number, evidence, k, n - 1);
        }
      } else if evidence[k].tool == Tickets && row.id.Some? && row.status.Some? {
        var fact := TicketFact(k + 1, row.id.value, row.status.value);
        forall number: nat ensures Judge(number, fact, evidence).support == Supported {
          TicketFactRoundTrip(number, evidence, k, n - 1);
        }
      }
    }
  }

  lemma ItemFactsSupported(evidence: seq<Observation>, k: nat)
    requires Stepped(evidence) && k < |evidence| && Printable(evidence[k])
    requires RecordsMatchScope(evidence[k].tool, evidence[k].service, evidence[k].output)
    ensures AllSupported(ItemFacts(evidence[k]), evidence)
  {
    hide Judge, CountFact, RowFacts;
    var items := evidence[k].output.items;
    if items == [] {
      var fact := CountFact(k + 1, evidence[k].tool, evidence[k].output.total);
      forall n: nat ensures Judge(n, fact, evidence).support == Supported {
        CountFactRoundTrip(n, evidence, k);
      }
    } else {
      RowFactsSupported(evidence, k, |FirstTwo(items)|);
      assert items[..|FirstTwo(items)|] == FirstTwo(items);
    }
  }

  lemma {:induction false} GatherSupported(evidence: seq<Observation>, from: nat, facts: seq<string>)
    requires Stepped(evidence) && from <= |evidence| && AllSupported(facts, evidence)
    requires forall k :: from <= k < |evidence| ==> Certifiable(evidence[k])
    ensures AllSupported(Gather(evidence[from..], facts), evidence)
    decreases |evidence| - from
  {
    hide Judge, ItemFacts, Printable, RecordsMatchScope;
    if from < |evidence| {
      ItemFactsSupported(evidence, from);
      var more := facts + ItemFacts(evidence[from]);
      assert evidence[from..][0] == evidence[from] && evidence[from..][1..] == evidence[from + 1..];
      assert AllSupported(more, evidence);
      if |more| < 10 { GatherSupported(evidence, from + 1, more); }
    }
  }

  /** Every fact proposed from printable evidence in scope is certified, and with at most five hypotheses the claim
      limit is never reached, so a report in time certifies them all. */
  lemma CandidateFactsAreCertified(evidence: seq<Observation>, hypotheses: seq<string>)
    requires Stepped(evidence) && |hypotheses| <= 5
    requires forall k :: 0 <= k < |evidence| ==> Certifiable(evidence[k])
    ensures var facts := CandidateFacts(evidence);
      && 1 <= |facts| && |facts| + |hypotheses| <= MAX_CLAIMS
      && (facts == NO_FACTS
          || forall i :: 0 <= i < |facts| ==> Judged(facts, hypotheses, evidence)[i].support == Supported)
  {
    hide Judge, Printable, RecordsMatchScope, Gather;
    GatherSupported(evidence, 0, []);
    assert evidence[0..] == evidence;
  }
}
