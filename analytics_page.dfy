/** The admin analytics page, frontend/src/pages/Admin/Analytics.tsx: the
    date range it keeps, the quick-range buttons, loading, and the CSV
    export of the top activities. Times are milliseconds; the ISO strings
    the page stores are not modelled. */
module AnalyticsPage {
  import opened Common
  import opened AnalyticsService

  const HeaderLine: string := "ID,Title,City,Uses,Avg Cost"

  /** `[a.id, a.title, a.city, a.uses, a.avg_cost]`. */
  function CsvFields(a: TopActivity): seq<string>
  {
    [IntToString(a.id), a.title, a.city, IntToString(a.uses), IntToString(a.avgCost)]
  }

  function CsvLines(acts: seq<TopActivity>): (lines: seq<string>)
    ensures |lines| == |acts|
    ensures forall i :: 0 <= i < |acts| ==> lines[i] == Join(",", CsvFields(acts[i]))
  {
    seq(|acts|, i requires 0 <= i < |acts| => Join(",", CsvFields(acts[i])))
  }

  /** `rows.map(r => r.join(',')).join('\n')`: no quoting, no trailing newline. */
  function Csv(acts: seq<TopActivity>): (r: string)
    ensures |HeaderLine| <= |r| && r[..|HeaderLine|] == HeaderLine
    ensures acts == [] ==> r == HeaderLine
  {
    JoinStartsWith("\n", [HeaderLine] + CsvLines(acts));
    Join("\n", [HeaderLine] + CsvLines(acts))
  }

  /** A join starts with its first part. */
  lemma {:induction false} JoinStartsWith(sep: string, parts: seq<string>)
    requires parts != []
    ensures |parts[0]| <= |Join(sep, parts)| && Join(sep, parts)[..|parts[0]|] == parts[0]
    decreases |parts|
  {
    if |parts| > 1 {
      var init := parts[..|parts| - 1];
      JoinStartsWith(sep, init);
      assert init[0] == parts[0];
      var j := Join(sep, init);
      assert (j + sep + parts[|parts| - 1])[..|parts[0]|] == j[..|parts[0]|];
    }
  }

  lemma {:induction false} NatDigits(n: nat)
    ensures forall i :: 0 <= i < |NatToString(n)| ==> '0' <= NatToString(n)[i] <= '9'
    decreases n
  {
    if n >= 10 {
      NatDigits(n / 10);
    }
  }

  /** A number is written with digits and a minus sign only. */
  lemma NumberHasNoSeparator(n: int)
    ensures ',' !in IntToString(n) && '\n' !in IntToString(n)
  {
    NatDigits(if n < 0 then -n else n);
    if n < 0 {
      assert IntToString(n) == "-" + NatToString(-n);
    }
  }

  predicate NoNewline(a: TopActivity)
  {
    '\n' !in a.title && '\n' !in a.city
  }

  /** The CSV has 1 + n lines: the header, then one line per top activity
      in order, as long as no title or city holds a line break. */
  lemma CsvHasOneLinePerActivity(acts: seq<TopActivity>)
    requires forall i :: 0 <= i < |acts| ==> NoNewline(acts[i])
    ensures Split(Csv(acts), '\n') == [HeaderLine] + CsvLines(acts)
    ensures |Split(Csv(acts), '\n')| == 1 + |acts|
  {
    var lines := [HeaderLine] + CsvLines(acts);
    forall i | 0 <= i < |lines| ensures '\n' !in lines[i] {
      if i > 0 {
        LineHasNoNewline(acts[i - 1]);
      }
    }
    SplitJoin(lines, '\n');
  }

  lemma LineHasNoNewline(a: TopActivity)
    requires NoNewline(a)
    ensures '\n' !in Join(",", CsvFields(a))
  {
    NumberHasNoSeparator(a.id);
    NumberHasNoSeparator(a.uses);
    NumberHasNoSeparator(a.avgCost);
    SplitJoin(CsvFields(a), '\n');
    JoinHasNo(CsvFields(a), ',', '\n');
  }

  /** Joining with a separator other than c adds no c. */
  lemma {:induction false} JoinHasNo(parts: seq<string>, sep: char, c: char)
    requires sep != c
    requires forall i :: 0 <= i < |parts| ==> c !in parts[i]
    ensures c !in Join([sep], parts)
    decreases |parts|
  {
    if |parts| > 1 {
      JoinHasNo(parts[..|parts| - 1], sep, c);
      JoinSnoc([sep], parts[..|parts| - 1], parts[|parts| - 1]);
      assert parts[..|parts| - 1] + [parts[|parts| - 1]] == parts;
    }
  }

  /** A data line splits back into its five fields in order, when neither
      title nor city holds a comma. */
  lemma LineFields(a: TopActivity)
    requires ',' !in a.title && ',' !in a.city
    ensures Split(Join(",", CsvFields(a)), ',') == CsvFields(a)
    ensures |Split(Join(",", CsvFields(a)), ',')| == 5
  {
    NumberHasNoSeparator(a.id);
    NumberHasNoSeparator(a.uses);
    NumberHasNoSeparator(a.avgCost);
    SplitJoin(CsvFields(a), ',');
  }

  /** Joining x + sep + y as one part gives the same text as joining x and
      y as two parts. */
  lemma {:induction false} JoinPieces(sep: string, pre: seq<string>, x: string, y: string, post: seq<string>)
    ensures Join(sep, pre + [x + sep + y] + post) == Join(sep, pre + [x, y] + post)
    decreases |post|
  {
    if post == [] {
      assert pre + [x + sep + y] + post == pre + [x + sep + y];
      assert pre + [x, y] + post == (pre + [x]) + [y];
      if pre == [] {
        assert Join(sep, [x]) == x;
        JoinSnoc(sep, [x], y);
        assert [x] + [y] == [x, y];
      } else {
        JoinSnoc(sep, pre, x + sep + y);
        JoinSnoc(sep, pre + [x], y);
        JoinSnoc(sep, pre, x);
      }
    } else {
      var last := post[|post| - 1];
      var init := post[..|post| - 1];
      JoinPieces(sep, pre, x, y, init);
      assert pre + [x + sep + y] + post == (pre + [x + sep + y] + init) + [last];
      assert pre + [x, y] + post == (pre + [x, y] + init) + [last];
      JoinSnoc(sep, pre + [x + sep + y] + init, last);
      JoinSnoc(sep, pre + [x, y] + init, last);
    }
  }

  /** Fields are not quoted: a comma in a title adds a field to its line. */
  lemma CommaInTitleAddsField(a: TopActivity, t1: string, t2: string)
    requires a.title == t1 + "," + t2
    requires ',' !in t1 && ',' !in t2 && ',' !in a.city
    ensures |Split(Join(",", CsvFields(a)), ',')| == 6
  {
    var six := [IntToString(a.id), t1, t2, a.city, IntToString(a.uses), IntToString(a.avgCost)];
    JoinPieces(",", [IntToString(a.id)], t1, t2, [a.city, IntToString(a.uses), IntToString(a.avgCost)]);
    assert [IntToString(a.id)] + [t1 + "," + t2] + [a.city, IntToString(a.uses), IntToString(a.avgCost)] == CsvFields(a);
    assert [IntToString(a.id)] + [t1, t2] + [a.city, IntToString(a.uses), IntToString(a.avgCost)] == six;
    NumberHasNoSeparator(a.id);
    NumberHasNoSeparator(a.uses);
    NumberHasNoSeparator(a.avgCost);
    SplitJoin(six, ',');
  }

  class AnalyticsState {
    var from: int
    var to: int
    var granularity: Granularity
    var data: Option<Payload>
    var error: Option<string>

    constructor (now: int)
      ensures from == now - 6 * MillisPerDay && to == now && granularity == Day
      ensures data.None? && error.None?
    {
      from, to, granularity := now - 6 * MillisPerDay, now, Day;
      data, error := None, None;
    }

    /** onQuick(days): the range ends now and starts days - 1 days earlier. */
    method OnQuick(days: int, now: int)
      modifies this
      ensures to == now && from == now - (days - 1) * MillisPerDay
      ensures granularity == old(granularity) && data == old(data) && error == old(error)
    {
      to := now;
      from := now - (days - 1) * MillisPerDay;
    }

    /** The end of load(): a result replaces the data; a failure keeps the
        old data and records the message. */
    method Loaded(result: Option<Payload>)
      modifies this
      ensures result.Some? ==> data == result && error.None?
      ensures result.None? ==> data == old(data) && error == Some("Failed to load analytics")
      ensures from == old(from) && to == old(to) && granularity == old(granularity)
    {
      error := None;
      if result.Some? {
        data := result;
      } else {
        error := Some("Failed to load analytics");
      }
    }

    /** onExportCsv: nothing without data, otherwise the CSV text. */
    method ExportCsv() returns (csv: Option<string>)
      ensures data.None? <==> csv.None?
      ensures data.Some? ==> csv == Some(Csv(data.value.topActivities))
    {
      if data.None? {
        return None;
      }
      var rows := [HeaderLine] + CsvLines(data.value.topActivities);
      csv := Some(Join("\n", rows));
    }
  }
}
