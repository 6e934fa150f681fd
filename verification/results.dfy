/** The result log: the demo search `busca_rapida` that appends one record, and
    the view `mostrar_resultados` that lists the first records. */
module Results {
  import opened Text

  /** One query result (`ResultadoDork`). */
  datatype DorkResult = DorkResult(
    title: string,
    url: string,
    snippet: string,
    operatorUsed: string,
    query: string,
    timestamp: string)

  /** The placeholder fields of the synthetic demo record. */
  const DemoTitle := "Resultado Demo"
  const DemoUrl := "https://exemplo.com"
  const DemoSnippet := "Trecho demo do resultado"

  /** The operator recorded when the demo search gets no words. */
  const DefaultOperator := "intitle"

  /** The view shows at most this many records. */
  const MaxShown: nat := 10
  /** Displayed titles are cut to this many characters. */
  const TitleWidth: nat := 60
  /** Displayed URLs are cut to this many characters. */
  const UrlWidth: nat := 50

  /** The record the demo search synthesizes from its words; the clock reading
      `now` is an input. */
  function DemoResult(words: seq<string>, now: string): (r: DorkResult)
    ensures r.query == Join(words, " ")
    ensures |words| > 0 ==> r.operatorUsed == words[0] && r.operatorUsed <= r.query
    ensures |words| == 0 ==> r.operatorUsed == DefaultOperator && r.query == ""
    ensures r.title == DemoTitle && r.url == DemoUrl && r.snippet == DemoSnippet
    ensures r.timestamp == now
  {
    DorkResult(DemoTitle, DemoUrl, DemoSnippet,
               if |words| > 0 then words[0] else DefaultOperator,
               Join(words, " "), now)
  }

  /** One displayed line: its number, the operator, and the cut title and URL. */
  datatype ShownRow = ShownRow(number: nat, operatorUsed: string, title: string, url: string)

  /** What `mostrar_resultados` prints: "no results", or the total and the rows. */
  datatype View = NoResults | Listing(total: nat, rows: seq<ShownRow>)

  /** The rows a view displays; "no results" displays none. */
  function Rows(v: View): (rows: seq<ShownRow>)
    ensures v.NoResults? ==> rows == []
  {
    if v.Listing? then v.rows else []
  }

  /** The smaller of two integers. */
  function Min(a: int, b: int): (m: int)
    ensures m <= a && m <= b && (m == a || m == b)
  {
    if a <= b then a else b
  }

  /** The row printed at position `i` (0-based) for record `r`. */
  function ShowRow(i: nat, r: DorkResult): (row: ShownRow)
    ensures Shows(row, i, r)
  {
    ShownRow(i + 1, r.operatorUsed, Take(r.title, TitleWidth), Take(r.url, UrlWidth))
  }

  /** `row` faithfully shows record `r` at position `i`: numbered from 1, the
      operator in full, and title and URL as prefixes of the originals that are
      cut to their widths only when longer. */
  predicate Shows(row: ShownRow, i: nat, r: DorkResult)
  {
    && row.number == i + 1
    && row.operatorUsed == r.operatorUsed
    && row.title <= r.title && |row.title| == Min(|r.title|, TitleWidth)
    && row.url <= r.url && |row.url| == Min(|r.url|, UrlWidth)
  }

  /** `mostrar_resultados`: an empty log shows "no results"; otherwise the total
      and one row for each of the first (at most ten) records, in log order. */
  function ShowResults(log: seq<DorkResult>): (v: View)
    ensures v.NoResults? <==> |log| == 0
    ensures v.Listing? ==> v.total == |log| && |v.rows| == Min(|log|, MaxShown)
    ensures v.Listing? ==> forall i :: 0 <= i < |v.rows| ==> Shows(v.rows[i], i, log[i])
    ensures v.Listing? ==> forall i :: 0 <= i < |v.rows| ==>
      |v.rows[i].title| <= TitleWidth && |v.rows[i].url| <= UrlWidth
  {
    if |log| == 0 then NoResults
    else
      var n := Min(|log|, MaxShown);
      Listing(|log|, seq(n, i requires 0 <= i < n => ShowRow(i, log[i])))
  }

  /** A shown title or URL is the original whenever it fits its width. */
  lemma ShortFieldsShownWhole(log: seq<DorkResult>, i: nat)
    requires i < |log| && i < MaxShown
    ensures ShowResults(log).Listing?
    ensures |log[i].title| <= TitleWidth ==> ShowResults(log).rows[i].title == log[i].title
    ensures |log[i].url| <= UrlWidth ==> ShowResults(log).rows[i].url == log[i].url
  {
    var row := ShowResults(log).rows[i];
    assert Shows(row, i, log[i]);
    if |log[i].title| <= TitleWidth {
      assert row.title == log[i].title[..|row.title|];
    }
    if |log[i].url| <= UrlWidth {
      assert row.url == log[i].url[..|row.url|];
    }
  }

  /** Appending a record never changes the rows already shown; it adds a row
      for the new record exactly when fewer than ten were shown. */
  lemma AppendKeepsShownRows(log: seq<DorkResult>, r: DorkResult)
    ensures ShowResults(log + [r]).Listing?
    ensures Rows(ShowResults(log)) <= Rows(ShowResults(log + [r]))
    ensures |log| < MaxShown ==>
      Rows(ShowResults(log + [r])) == Rows(ShowResults(log)) + [ShowRow(|log|, r)]
    ensures |log| >= MaxShown ==> Rows(ShowResults(log + [r])) == Rows(ShowResults(log))
  {
    var before := Rows(ShowResults(log));
    var after := Rows(ShowResults(log + [r]));
    assert forall i :: 0 <= i < |before| ==> before[i] == after[i];
    if |log| < MaxShown {
      assert after == before + [ShowRow(|log|, r)];
    }
  }

  /** `busca_rapida`: append the synthetic record for `words` to the log and
      show the log. Earlier records are unchanged. */
  method QuickSearch(log: seq<DorkResult>, words: seq<string>, now: string)
    returns (log': seq<DorkResult>, view: View)
    ensures |log'| == |log| + 1
    ensures log'[..|log|] == log
    ensures log'[|log|] == DemoResult(words, now)
    ensures view == ShowResults(log')
    ensures view.Listing? && view.total == |log| + 1
  {
    var query := JoinWords(words, " ");
    var op := if |words| > 0 then words[0] else DefaultOperator;
    log' := log + [DorkResult(DemoTitle, DemoUrl, DemoSnippet, op, query, now)];
    view := ShowResults(log');
  }

  /** Worked example: a demo search on `intitle:admin senha`. */
  lemma DemoExample(now: string)
    ensures DemoResult(["intitle:admin", "senha"], now).operatorUsed == "intitle:admin"
    ensures DemoResult(["intitle:admin", "senha"], now).query == "intitle:admin senha"
    ensures DemoResult([], now).operatorUsed == "intitle"
  {
    JoinSnoc(["intitle:admin"], "senha", " ");
    assert ["intitle:admin"] + ["senha"] == ["intitle:admin", "senha"];
  }
}
