/** The two report builders of weather.py, `generate_summary` and
    `generate_daily_summary`, over a table of daily records. */
module Reports {
  import opened Wrappers
  import opened Errors
  import opened Text
  import opened Temperature
  import opened Reducers

  /** One row of the weather table: an ISO date and the day's low and high
      temperatures in degrees Fahrenheit. */
  datatype DailyRecord = DailyRecord(date: string, low: int, high: int)

  /** The collaborators whose behaviour belongs to Python's libraries and
      floating point, taken as given functions:
      `convertDate` is `convert_date` (`datetime` parsing and `strftime`),
      `convertFToC` is `convert_f_to_c` (float arithmetic and `round(_, 1)`),
      `show` is the text an f-string gives a float. */
  datatype Collaborators = Collaborators(
    convertDate: string -> string,
    convertFToC: real -> real,
    show: real -> string)

  /** None of the collaborators' texts holds a line break. */
  ghost predicate SingleLine(lib: Collaborators)
  {
    && (forall d :: '\n' !in lib.convertDate(d))
    && (forall f :: '\n' !in lib.show(lib.convertFToC(f)))
  }

  /** `format_temperature(convert_f_to_c(f))`: how the reports print a
      Fahrenheit value. */
  function TemperatureText(lib: Collaborators, f: real): string
  {
    FormatTemperature(lib.show(lib.convertFToC(f)))
  }

  /** The column of lows, in table order. */
  function Lows(data: seq<DailyRecord>): seq<int>
  {
    seq(|data|, i requires 0 <= i < |data| => data[i].low)
  }

  /** The column of highs, in table order. */
  function Highs(data: seq<DailyRecord>): seq<int>
  {
    seq(|data|, i requires 0 <= i < |data| => data[i].high)
  }

  /** Extending a prefix of the table by one record extends both columns by
      that record's low and high. */
  lemma ColumnsExtend(data: seq<DailyRecord>, i: nat)
    requires i < |data|
    ensures Lows(data[..i + 1]) == Lows(data[..i]) + [data[i].low]
    ensures Highs(data[..i + 1]) == Highs(data[..i]) + [data[i].high]
  {
  }

  // ---------------------------------------------------------------------
  // generate_summary

  /** The first line of the overview: the number of records. */
  function HeaderLine(n: nat): string
  {
    Line(NatToDecimal(n) + " Day Overview")
  }

  /** The second line: the lowest temperature and its day. */
  function LowestLine(minC: string, minDay: string): string
  {
    Line("  The lowest temperature will be " + minC + ", and will occur on " + minDay + ".")
  }

  /** The third line: the highest temperature and its day. */
  function HighestLine(maxC: string, maxDay: string): string
  {
    Line("  The highest temperature will be " + maxC + ", and will occur on " + maxDay + ".")
  }

  /** The fourth line: the mean of the lows. */
  function AverageLowLine(avgLowC: string): string
  {
    Line("  The average low this week is " + avgLowC + ".")
  }

  /** The fifth line: the mean of the highs. */
  function AverageHighLine(avgHighC: string): string
  {
    Line("  The average high this week is " + avgHighC + ".")
  }

  /** The fixed five-line layout of the overview, given its seven fields. */
  function OverviewLines(n: nat, minC: string, minDay: string, maxC: string, maxDay: string,
                         avgLowC: string, avgHighC: string): string
  {
    HeaderLine(n) + LowestLine(minC, minDay) + HighestLine(maxC, maxDay)
    + AverageLowLine(avgLowC) + AverageHighLine(avgHighC)
  }

  /** The overview of a non-empty table, computed once over the whole low
      and high columns. */
  function OverviewText(data: seq<DailyRecord>, lib: Collaborators): string
    requires data != []
  {
    var lo := LastMin(Lows(data)).value;
    var hi := LastMax(Highs(data)).value;
    OverviewLines(|data|,
                  TemperatureText(lib, lo.value as real), lib.convertDate(data[lo.index].date),
                  TemperatureText(lib, hi.value as real), lib.convertDate(data[hi.index].date),
                  TemperatureText(lib, Mean(Lows(data)).value),
                  TemperatureText(lib, Mean(Highs(data)).value))
  }

  /** `generate_summary`, loop and all: each pass appends one record's low and
      high to the growing columns and recomputes minimum, maximum, means and
      the two dates on that prefix. Only the last pass, over the whole table,
      survives, so the result is the whole-table overview. On an empty table
      the loop never binds `min_temp` and the final f-string raises. */
  method GenerateSummary(weatherData: seq<DailyRecord>, lib: Collaborators)
    returns (r: Result<string, Error>)
    ensures weatherData == [] ==> r == Failure(UnboundLocalError)
    ensures weatherData != [] ==> r == Success(OverviewText(weatherData, lib))
  {
    var numOfSummary := |weatherData|;
    var minCList: seq<int> := [];
    var maxCList: seq<int> := [];
    // Python leaves these names unbound until the first pass.
    var bound := false;
    var minTemp, minIndex, maxTemp, maxIndex := 0, 0, 0, 0;
    var averageMin, averageMax := 0.0, 0.0;
    var dayMin, dayMax := "", "";
    for i := 0 to |weatherData|
      invariant minCList == Lows(weatherData[..i])
      invariant maxCList == Highs(weatherData[..i])
      invariant bound <==> i > 0
      invariant bound ==> minIndex < i && maxIndex < i
      invariant bound ==> LastMin(minCList) == Some(Extreme(minTemp, minIndex))
      invariant bound ==> LastMax(maxCList) == Some(Extreme(maxTemp, maxIndex))
      invariant bound ==> Mean(minCList) == Success(averageMin)
      invariant bound ==> Mean(maxCList) == Success(averageMax)
      invariant bound ==> dayMin == lib.convertDate(weatherData[minIndex].date)
      invariant bound ==> dayMax == lib.convertDate(weatherData[maxIndex].date)
    {
      var summaryList := weatherData[i];
      minCList := minCList + [summaryList.low];
      maxCList := maxCList + [summaryList.high];
      ColumnsExtend(weatherData, i);
      var lowest := FindMin(minCList);
      var highest := FindMax(maxCList);
      minTemp, minIndex := lowest.value.value, lowest.value.index;
      maxTemp, maxIndex := highest.value.value, highest.value.index;
      averageMin := Mean(minCList).value;
      averageMax := Mean(maxCList).value;
      dayMin := lib.convertDate(weatherData[minIndex].date);
      dayMax := lib.convertDate(weatherData[maxIndex].date);
      bound := true;
    }
    if !bound {
      return Failure(UnboundLocalError);
    }
    assert weatherData[..|weatherData|] == weatherData;
    assert LastMin(Lows(weatherData)).value == Extreme(minTemp, minIndex);
    assert LastMax(Highs(weatherData)).value == Extreme(maxTemp, maxIndex);
    assert Mean(Lows(weatherData)).value == averageMin;
    assert Mean(Highs(weatherData)).value == averageMax;
    r := Success(OverviewLines(numOfSummary,
                               TemperatureText(lib, minTemp as real), dayMin,
                               TemperatureText(lib, maxTemp as real), dayMax,
                               TemperatureText(lib, averageMin),
                               TemperatureText(lib, averageMax)));
  }

  /** What the overview reports, in terms of the whole table: the least low
      and the last day it occurs on, the greatest high and the last day it
      occurs on, and the two column means (sum over count). */
  lemma OverviewMeaning(data: seq<DailyRecord>, lib: Collaborators,
                        lowest: int, k: nat, highest: int, m: nat)
    requires data != []
    requires IsLastMin(Lows(data), lowest, k)
    requires IsLastMax(Highs(data), highest, m)
    ensures k < |data| && m < |data|
    ensures OverviewText(data, lib)
         == OverviewLines(|data|,
                          TemperatureText(lib, lowest as real), lib.convertDate(data[k].date),
                          TemperatureText(lib, highest as real), lib.convertDate(data[m].date),
                          TemperatureText(lib, Sum(Lows(data)) as real / |data| as real),
                          TemperatureText(lib, Sum(Highs(data)) as real / |data| as real))
  {
    LastMinUnique(Lows(data), lowest, k);
    LastMaxUnique(Highs(data), highest, m);
  }

  /** A temperature as the reports print it holds no line break when the
      collaborators' texts hold none. */
  lemma TemperatureTextSingleLine(lib: Collaborators, f: real)
    requires SingleLine(lib)
    ensures '\n' !in TemperatureText(lib, f)
  {
    assert '\n' !in lib.show(lib.convertFToC(f));
    assert '\n' !in DegreeSymbol;
  }

  /** The header is a single line. */
  lemma HeaderLineSingle(n: nat)
    ensures NewlineCount(HeaderLine(n)) == 1
  {
    var digits := NatToDecimal(n);
    DecimalSingleLine(n);
    assert '\n' !in " Day Overview";
    LineNewlines(digits + " Day Overview");
  }

  /** The lowest-temperature line is a single line when its fields are. */
  lemma LowestLineSingle(minC: string, minDay: string)
    requires '\n' !in minC && '\n' !in minDay
    ensures NewlineCount(LowestLine(minC, minDay)) == 1
  {
    assert '\n' !in "  The lowest temperature will be ";
    assert '\n' !in ", and will occur on " && '\n' !in ".";
    LineNewlines("  The lowest temperature will be " + minC + ", and will occur on " + minDay + ".");
  }

  /** The highest-temperature line is a single line when its fields are. */
  lemma HighestLineSingle(maxC: string, maxDay: string)
    requires '\n' !in maxC && '\n' !in maxDay
    ensures NewlineCount(HighestLine(maxC, maxDay)) == 1
  {
    assert '\n' !in "  The highest temperature will be ";
    assert '\n' !in ", and will occur on " && '\n' !in ".";
    LineNewlines("  The highest temperature will be " + maxC + ", and will occur on " + maxDay + ".");
  }

  /** The average-low line is a single line when its field is. */
  lemma AverageLowLineSingle(avgLowC: string)
    requires '\n' !in avgLowC
    ensures NewlineCount(AverageLowLine(avgLowC)) == 1
  {
    assert '\n' !in "  The average low this week is " && '\n' !in ".";
    LineNewlines("  The average low this week is " + avgLowC + ".");
  }

  /** The average-high line is a single line when its field is. */
  lemma AverageHighLineSingle(avgHighC: string)
    requires '\n' !in avgHighC
    ensures NewlineCount(AverageHighLine(avgHighC)) == 1
  {
    assert '\n' !in "  The average high this week is " && '\n' !in ".";
    LineNewlines("  The average high this week is " + avgHighC + ".");
  }

  /** The layout of the overview: it opens with its header line and ends in
      a newline, and with line-free fields it is exactly five lines. */
  lemma OverviewLinesShape(n: nat, minC: string, minDay: string, maxC: string, maxDay: string,
                           avgLowC: string, avgHighC: string)
    ensures var text, header := OverviewLines(n, minC, minDay, maxC, maxDay, avgLowC, avgHighC), HeaderLine(n);
            && |header| <= |text|
            && text[..|header|] == header
            && text[|text| - 1] == '\n'
    ensures ('\n' !in minC && '\n' !in minDay && '\n' !in maxC && '\n' !in maxDay
             && '\n' !in avgLowC && '\n' !in avgHighC)
            ==> NewlineCount(OverviewLines(n, minC, minDay, maxC, maxDay, avgLowC, avgHighC)) == 5
  {
    var header, l2, l3 := HeaderLine(n), LowestLine(minC, minDay), HighestLine(maxC, maxDay);
    var l4, l5 := AverageLowLine(avgLowC), AverageHighLine(avgHighC);
    FiveLines(header, l2, l3, l4, l5);
    if '\n' !in minC && '\n' !in minDay && '\n' !in maxC && '\n' !in maxDay
       && '\n' !in avgLowC && '\n' !in avgHighC {
      HeaderLineSingle(n);
      LowestLineSingle(minC, minDay);
      HighestLineSingle(maxC, maxDay);
      AverageLowLineSingle(avgLowC);
      AverageHighLineSingle(avgHighC);
    }
  }

  /** The overview opens with `"{N} Day Overview"` for a table of N records
      and ends in a newline; when no collaborator text breaks a line, it has
      exactly five lines. */
  lemma OverviewShape(data: seq<DailyRecord>, lib: Collaborators)
    requires data != []
    ensures var text, header := OverviewText(data, lib), HeaderLine(|data|);
            && |header| <= |text|
            && text[..|header|] == header
            && text[|text| - 1] == '\n'
    ensures SingleLine(lib) ==> NewlineCount(OverviewText(data, lib)) == 5
  {
    var lo := LastMin(Lows(data)).value;
    var hi := LastMax(Highs(data)).value;
    var minC, minDay := TemperatureText(lib, lo.value as real), lib.convertDate(data[lo.index].date);
    var maxC, maxDay := TemperatureText(lib, hi.value as real), lib.convertDate(data[hi.index].date);
    var avgLowC := TemperatureText(lib, Mean(Lows(data)).value);
    var avgHighC := TemperatureText(lib, Mean(Highs(data)).value);
    assert OverviewText(data, lib) == OverviewLines(|data|, minC, minDay, maxC, maxDay, avgLowC, avgHighC);
    OverviewLinesShape(|data|, minC, minDay, maxC, maxDay, avgLowC, avgHighC);
    if SingleLine(lib) {
      TemperatureTextSingleLine(lib, lo.value as real);
      TemperatureTextSingleLine(lib, hi.value as real);
      TemperatureTextSingleLine(lib, Mean(Lows(data)).value);
      TemperatureTextSingleLine(lib, Mean(Highs(data)).value);
      assert '\n' !in minDay && '\n' !in maxDay;
    }
  }

  // ---------------------------------------------------------------------
  // generate_daily_summary

  /** The heading line of a day's block. */
  function DayHeadingLine(day: string): string
  {
    Line("---- " + day + " ----")
  }

  /** The minimum line of a day's block. */
  function MinimumLine(minC: string): string
  {
    Line("  Minimum Temperature: " + minC)
  }

  /** The maximum line of a day's block. */
  function MaximumLine(maxC: string): string
  {
    Line("  Maximum Temperature: " + maxC)
  }

  /** The block the daily summary prints for one record: a heading with the
      date, the minimum, the maximum and a blank line. */
  function DailyBlock(rec: DailyRecord, lib: Collaborators): string
  {
    DayHeadingLine(lib.convertDate(rec.date))
    + MinimumLine(TemperatureText(lib, rec.low as real))
    + MaximumLine(TemperatureText(lib, rec.high as real))
    + Line("")
  }

  /** The blocks of all records, one per record and in table order. */
  function DailyBlocks(data: seq<DailyRecord>, lib: Collaborators): seq<string>
  {
    seq(|data|, i requires 0 <= i < |data| => DailyBlock(data[i], lib))
  }

  /** The daily summary: the blocks of all records, joined in table order. */
  function DailyText(data: seq<DailyRecord>, lib: Collaborators): string
  {
    Concat(DailyBlocks(data, lib))
  }

  /** `generate_daily_summary`: one pass over the table that converts each
      record's date, low and high, appends them to three lists and grows the
      output by the record's block. */
  method GenerateDailySummary(weatherData: seq<DailyRecord>, lib: Collaborators)
    returns (output: string)
    ensures output == DailyText(weatherData, lib)
    ensures weatherData == [] ==> output == ""
  {
    var numOfData := |weatherData|;
    var dayList: seq<string> := [];
    var minCList: seq<string> := [];
    var maxCList: seq<string> := [];
    output := "";
    for i := 0 to numOfData
      invariant |dayList| == i && |minCList| == i && |maxCList| == i
      invariant output == Concat(DailyBlocks(weatherData, lib)[..i])
    {
      var day := lib.convertDate(weatherData[i].date);
      dayList := dayList + [day];
      var minC := lib.convertFToC(weatherData[i].low as real);
      var formatMinC := FormatTemperature(lib.show(minC));
      minCList := minCList + [formatMinC];
      var maxC := lib.convertFToC(weatherData[i].high as real);
      var formatMaxC := FormatTemperature(lib.show(maxC));
      maxCList := maxCList + [formatMaxC];
      var block := DayHeadingLine(dayList[i]) + MinimumLine(minCList[i])
                   + MaximumLine(maxCList[i]) + Line("");
      assert dayList[i] == lib.convertDate(weatherData[i].date);
      assert minCList[i] == TemperatureText(lib, weatherData[i].low as real);
      assert maxCList[i] == TemperatureText(lib, weatherData[i].high as real);
      assert block == DailyBlock(weatherData[i], lib);
      ghost var blocks := DailyBlocks(weatherData, lib);
      TakeOneMore(blocks, i);
      ConcatSnoc(blocks[..i], blocks[i]);
      output := output + block;
    }
    assert DailyBlocks(weatherData, lib)[..numOfData] == DailyBlocks(weatherData, lib);
  }

  /** The daily summary of two tables one after the other is the summary of
      the first followed by that of the second. */
  lemma DailyTextAppend(a: seq<DailyRecord>, b: seq<DailyRecord>, lib: Collaborators)
    ensures DailyText(a + b, lib) == DailyText(a, lib) + DailyText(b, lib)
  {
    assert DailyBlocks(a + b, lib) == DailyBlocks(a, lib) + DailyBlocks(b, lib);
    ConcatAppend(DailyBlocks(a, lib), DailyBlocks(b, lib));
  }

  /** Record i's block, built from that record's own date, low and high,
      comes right after the blocks of the records before it and right before
      those after it. */
  lemma DailyTextBlockAt(data: seq<DailyRecord>, i: nat, lib: Collaborators)
    requires i < |data|
    ensures DailyText(data, lib)
         == DailyText(data[..i], lib) + DailyBlock(data[i], lib) + DailyText(data[i + 1..], lib)
  {
    var blocks := DailyBlocks(data, lib);
    assert DailyBlocks(data[..i], lib) == blocks[..i];
    assert DailyBlocks(data[i + 1..], lib) == blocks[i + 1..];
    ConcatAt(blocks, i);
  }

  /** The heading line of a block is a single line when the date is. */
  lemma DayHeadingLineSingle(day: string)
    requires '\n' !in day
    ensures NewlineCount(DayHeadingLine(day)) == 1
  {
    assert '\n' !in "---- " && '\n' !in " ----";
    LineNewlines("---- " + day + " ----");
  }

  /** The minimum line of a block is a single line when its value is. */
  lemma MinimumLineSingle(minC: string)
    requires '\n' !in minC
    ensures NewlineCount(MinimumLine(minC)) == 1
  {
    assert '\n' !in "  Minimum Temperature: ";
    LineNewlines("  Minimum Temperature: " + minC);
  }

  /** The maximum line of a block is a single line when its value is. */
  lemma MaximumLineSingle(maxC: string)
    requires '\n' !in maxC
    ensures NewlineCount(MaximumLine(maxC)) == 1
  {
    assert '\n' !in "  Maximum Temperature: ";
    LineNewlines("  Maximum Temperature: " + maxC);
  }

  /** A record's block is four lines: its heading, its minimum, its maximum
      and a blank line. */
  lemma DailyBlockLines(rec: DailyRecord, lib: Collaborators)
    requires SingleLine(lib)
    ensures NewlineCount(DailyBlock(rec, lib)) == 4
  {
    var day := lib.convertDate(rec.date);
    var minC, maxC := TemperatureText(lib, rec.low as real), TemperatureText(lib, rec.high as real);
    assert '\n' !in day;
    TemperatureTextSingleLine(lib, rec.low as real);
    TemperatureTextSingleLine(lib, rec.high as real);
    DayHeadingLineSingle(day);
    MinimumLineSingle(minC);
    MaximumLineSingle(maxC);
    LineNewlines("");
    FourLines(DayHeadingLine(day), MinimumLine(minC), MaximumLine(maxC), Line(""));
  }

  /** When no collaborator text breaks a line, the daily summary holds four
      lines per record. */
  lemma DailyLineCount(data: seq<DailyRecord>, lib: Collaborators)
    requires SingleLine(lib)
    ensures NewlineCount(DailyText(data, lib)) == 4 * |data|
  {
    var blocks := DailyBlocks(data, lib);
    forall i | 0 <= i < |blocks|
      ensures NewlineCount(blocks[i]) == 4
    {
      DailyBlockLines(data[i], lib);
    }
    ConcatNewlines(blocks, 4);
  }
}
