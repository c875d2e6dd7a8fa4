/**
  The console side of the explorer (spacexexplorer/textui_manager.py): how one
  typed answer becomes a choice, how a menu is laid out in one or three
  columns, and how the launch statistics table is drawn.

  The terminal itself is a value: the answers still to be typed and the lines
  printed so far. `sys.exit('Bye!')` becomes the choice Exit.
 */
module TextUI {
  import opened Builtins

  /** Menus with at least this many items are printed in three columns. */
  const ColumnLimit: nat := 10

  /** Month abbreviations as the source spells them (April is "Apl"). */
  const MonthNames: seq<string> :=
    ["Jan", "Feb", "Mar", "Apl", "May", "Jun", "Jul", "Aug", "Sep", "Oct", "Nov", "Dec"]

  const SeparatorLine: string := "============================================="
  const ExitHint: string := "To exit: please type 'e'"

  // ---------------------------------------------------------------------------
  // Interpreting one answer

  /** What `ask_user_choice` makes of one answer: an index, the default, an exit, or None. */
  datatype Choice = Index(n: int) | Default | Exit | Invalid

  /**
    The answer is an index when it parses as an integer below the list length
    (there is no lower bound), the default when it is empty and a default was
    given (the default is not range-checked), an exit when it is "e" (whether or
    not the exit hint was shown), and None otherwise.
   */
  function Interpret(answer: string, listLength: nat, default: int): (r: Choice)
    ensures r.Index? <==> IsInt(answer) && ParseInt(answer) < listLength
    ensures r.Index? ==> r.n == ParseInt(answer)
    ensures r == Default <==> answer == "" && default > -1
    ensures r == Exit <==> answer == "e"
    ensures r == Invalid <==>
      !(IsInt(answer) && ParseInt(answer) < listLength) && !(answer == "" && default > -1) && answer != "e"
  {
    if IsInt(answer) && ParseInt(answer) < listLength then Index(ParseInt(answer))
    else if answer == "" && default > -1 then Default
    else if answer == "e" then Exit
    else Invalid
  }

  /** Any integer below the list length that is typed back is accepted as it is, negative ones included. */
  lemma {:induction false} EveryIndexBelowLengthAccepted(n: int, listLength: nat, default: int)
    requires n < listLength
    ensures Interpret(IntToString(n), listLength, default) == Index(n)
  {
    IntRoundTrip(n);
  }

  // ---------------------------------------------------------------------------
  // Menu layout

  /** The text of menu item i: "{i}: {item}", with " [default]" at the default index. */
  function ItemLine(i: nat, item: string, isDefault: bool): string
  {
    IntToString(i) + ": " + item + (if isDefault then " [default]" else "")
  }

  function NumberedItems(mlist: seq<string>, default: int): (lines: seq<string>)
    ensures |lines| == |mlist|
    ensures forall i :: 0 <= i < |mlist| ==>
      lines[i] == IntToString(i) + ": " + mlist[i] + (if i == default then " [default]" else "")
  {
    seq(|mlist|, i requires 0 <= i < |mlist| => ItemLine(i, mlist[i], i == default))
  }

  function MaxLen(strlist: seq<string>): (m: nat)
    requires |strlist| > 0
    ensures forall j :: 0 <= j < |strlist| ==> |strlist[j]| <= m
    ensures exists j :: 0 <= j < |strlist| && |strlist[j]| == m
  {
    if |strlist| == 1 then |strlist[0]|
    else
      var rest := MaxLen(strlist[1..]);
      assert forall j :: 1 <= j < |strlist| ==> strlist[j] == strlist[1..][j - 1];
      if |strlist[0]| < rest then rest else |strlist[0]|
  }

  /**
    `add_spaces`: every string is padded with spaces to one more than the
    longest input, so the result has the same length and each item keeps its
    text as a prefix.
   */
  function AddSpaces(strlist: seq<string>): (r: seq<string>)
    requires |strlist| > 0
    ensures |r| == |strlist|
    ensures forall i :: 0 <= i < |r| ==> |r[i]| == |r[0]|
    ensures forall j :: 0 <= j < |strlist| ==> |strlist[j]| < |r[0]|
    ensures exists j :: 0 <= j < |strlist| && |r[0]| == |strlist[j]| + 1
    ensures forall i :: 0 <= i < |r| ==> r[i][..|strlist[i]|] == strlist[i]
    ensures forall i, j :: 0 <= i < |r| && |strlist[i]| <= j < |r[i]| ==> r[i][j] == ' '
  {
    var width := MaxLen(strlist) + 1;
    seq(|strlist|, i requires 0 <= i < |strlist| => LJust(strlist[i], width))
  }

  function Concat(strs: seq<string>): string
  {
    if strs == [] then "" else strs[0] + Concat(strs[1..])
  }

  lemma {:induction false} ConcatAppend(a: seq<string>, b: seq<string>)
    ensures Concat(a + b) == Concat(a) + Concat(b)
  {
    if a != [] {
      assert (a + b)[1..] == a[1..] + b;
      ConcatAppend(a[1..], b);
    } else {
      assert a + b == b;
    }
  }

  /** Padded items taken three at a time, each group forming one printed line. */
  function Columns(padded: seq<string>): (r: seq<string>)
    ensures |r| == (|padded| + 2) / 3
    decreases |padded|
  {
    if |padded| == 0 then []
    else if |padded| <= 3 then [Concat(padded)]
    else [Concat(padded[..3])] + Columns(padded[3..])
  }

  /**
    The three-column layout prints ceil(n/3) lines: line k holds items 3k, 3k+1
    and 3k+2, and a remainder of one or two items forms the last line.
   */
  lemma {:induction false} ColumnsLayout(padded: seq<string>)
    ensures |Columns(padded)| == (|padded| + 2) / 3
    ensures forall k :: 0 <= k < |padded| / 3 ==>
      Columns(padded)[k] == padded[3 * k] + padded[3 * k + 1] + padded[3 * k + 2]
    ensures |padded| % 3 == 1 ==> Columns(padded)[|padded| / 3] == padded[|padded| - 1]
    ensures |padded| % 3 == 2 ==> Columns(padded)[|padded| / 3] == padded[|padded| - 2] + padded[|padded| - 1]
  {
    var n := |padded|;
    if 0 < n <= 3 {
      ConcatSmall(padded);
    } else if n > 3 {
      var rest := padded[3..];
      ColumnsLayout(rest);
      ConcatSmall(padded[..3]);
      forall k | 0 < k < n / 3
        ensures Columns(padded)[k] == padded[3 * k] + padded[3 * k + 1] + padded[3 * k + 2]
      {
        assert Columns(padded)[k] == Columns(rest)[k - 1];
        assert rest[3 * (k - 1)] == padded[3 * k];
        assert rest[3 * (k - 1) + 1] == padded[3 * k + 1];
        assert rest[3 * (k - 1) + 2] == padded[3 * k + 2];
      }
      if n % 3 != 0 {
        assert Columns(padded)[n / 3] == Columns(rest)[n / 3 - 1];
      }
    }
  }

  /** One, two or three items concatenate to a single line. */
  lemma ConcatSmall(t: seq<string>)
    requires 1 <= |t| <= 3
    ensures |t| == 1 ==> Concat(t) == t[0]
    ensures |t| == 2 ==> Concat(t) == t[0] + t[1]
    ensures |t| == 3 ==> Concat(t) == t[0] + t[1] + t[2]
  {
    var u := t[1..];
    if |t| == 1 {
      assert Concat(t) == t[0] + Concat(u);
    } else if |t| == 2 {
      assert u[1..] == [];
      assert Concat(u) == u[0] + Concat(u[1..]);
    } else {
      assert u[1..][1..] == [];
      assert Concat(u[1..]) == u[1] + Concat(u[1..][1..]);
      assert Concat(u) == u[0] + u[1];
    }
  }

  /** Reading the three-column lines one after another gives the padded items in their original order. */
  lemma {:induction false} ColumnsKeepOrder(padded: seq<string>)
    ensures Concat(Columns(padded)) == Concat(padded)
    decreases |padded|
  {
    if |padded| == 0 {
    } else if |padded| <= 3 {
      assert Concat(Columns(padded)) == Concat(padded) + Concat([]);
    } else {
      ColumnsKeepOrder(padded[3..]);
      assert Columns(padded)[1..] == Columns(padded[3..]);
      assert padded == padded[..3] + padded[3..];
      ConcatAppend(padded[..3], padded[3..]);
    }
  }

  /** The menu lines `ask_user_choice` prints below its message. */
  function MenuLines(mlist: seq<string>, default: int): (r: seq<string>)
    ensures |mlist| < ColumnLimit ==> |r| == |mlist|
    ensures |mlist| >= ColumnLimit ==> |r| == (|mlist| + 2) / 3
  {
    if |mlist| < ColumnLimit then NumberedItems(mlist, default)
    else Columns(AddSpaces(NumberedItems(mlist, default)))
  }

  /** Fewer than ten items: one line per item, " [default]" only at the default index. */
  lemma SingleColumnLayout(mlist: seq<string>, default: int)
    requires |mlist| < ColumnLimit
    ensures |MenuLines(mlist, default)| == |mlist|
    ensures forall i :: 0 <= i < |mlist| ==>
      MenuLines(mlist, default)[i] == IntToString(i) + ": " + mlist[i] + (if i == default then " [default]" else "")
  {
  }

  /** Ten or more items: ceil(n/3) lines that together spell out every padded item in order. */
  lemma ThreeColumnLayout(mlist: seq<string>, default: int)
    requires |mlist| >= ColumnLimit
    ensures |MenuLines(mlist, default)| == (|mlist| + 2) / 3
    ensures Concat(MenuLines(mlist, default)) == Concat(AddSpaces(NumberedItems(mlist, default)))
  {
    var padded := AddSpaces(NumberedItems(mlist, default));
    ColumnsLayout(padded);
    ColumnsKeepOrder(padded);
  }

  /** The single-column branch of `ask_user_choice`: one line per item, in order. */
  method SingleColumn(mlist: seq<string>, default: int) returns (lines: seq<string>)
    ensures lines == NumberedItems(mlist, default)
  {
    var listLength := |mlist|;
    lines := [];
    var iteration := 0;
    while iteration < listLength
      invariant 0 <= iteration <= listLength
      invariant lines == NumberedItems(mlist, default)[..iteration]
    {
      if iteration == default {
        lines := lines + [ItemLine(iteration, mlist[iteration], true)];
      } else {
        lines := lines + [ItemLine(iteration, mlist[iteration], false)];
      }
      iteration := iteration + 1;
    }
    assert NumberedItems(mlist, default)[..listLength] == NumberedItems(mlist, default);
  }

  /** The item strings the three-column branch collects before padding them. */
  method CollectItems(mlist: seq<string>, default: int) returns (strlist: seq<string>)
    ensures strlist == NumberedItems(mlist, default)
  {
    var listLength := |mlist|;
    strlist := [];
    var i := 0;
    while i < listLength
      invariant 0 <= i <= listLength
      invariant strlist == NumberedItems(mlist, default)[..i]
    {
      if default > -1 && i == default {
        strlist := strlist + [ItemLine(i, mlist[i], true)];
      } else {
        strlist := strlist + [ItemLine(i, mlist[i], false)];
      }
      i := i + 1;
    }
    assert NumberedItems(mlist, default)[..listLength] == NumberedItems(mlist, default);
  }

  /**
    The printing of padded items in the three-column branch: zip the items
    three at a time, then print a remainder of one or two items on a last line.
   */
  method ThreeColumns(strlist: seq<string>) returns (lines: seq<string>)
    ensures lines == Columns(strlist)
  {
    var n := |strlist|;
    lines := [];
    var k := 0;
    while k < n / 3
      invariant 0 <= k <= n / 3
      invariant |lines| == k
      invariant forall j :: 0 <= j < k ==> lines[j] == strlist[3 * j] + strlist[3 * j + 1] + strlist[3 * j + 2]
    {
      lines := lines + [strlist[3 * k] + strlist[3 * k + 1] + strlist[3 * k + 2]];
      k := k + 1;
    }
    if n % 3 == 1 {
      lines := lines + [strlist[n - 1]];
    }
    if n % 3 == 2 {
      lines := lines + [strlist[n - 2] + strlist[n - 1]];
    }
    ColumnsLayout(strlist);
    assert |lines| == |Columns(strlist)|;
  }

  /** The layout part of `ask_user_choice`: one column below ten items, three columns from ten on. */
  method RenderMenu(mlist: seq<string>, default: int) returns (lines: seq<string>)
    ensures lines == MenuLines(mlist, default)
  {
    if |mlist| < ColumnLimit {
      lines := SingleColumn(mlist, default);
    } else {
      var strlist := CollectItems(mlist, default);
      strlist := AddSpaces(strlist);
      lines := ThreeColumns(strlist);
    }
  }

  // ---------------------------------------------------------------------------
  // The launch statistics table

  /** A table row: a leading "|" and then every cell followed by "|". */
  function Row(cells: seq<string>): (r: string)
    ensures |r| >= |cells| + 1
    ensures r[0] == '|' && r[|r| - 1] == '|'
  {
    if cells == [] then "|" else Row(cells[..|cells| - 1]) + cells[|cells| - 1] + "|"
  }

  /** A row starts with "|" and holds one more "|" than it has cells, when no cell contains one. */
  lemma {:induction false} RowBars(cells: seq<string>)
    requires forall i :: 0 <= i < |cells| ==> '|' !in cells[i]
    ensures |Row(cells)| > 0 && Row(cells)[0] == '|'
    ensures multiset(Row(cells))['|'] == |cells| + 1
  {
    if cells != [] {
      var init := cells[..|cells| - 1];
      RowBars(init);
      var last := cells[|cells| - 1];
      assert multiset(last)['|'] == 0;
      assert Row(cells) == Row(init) + last + "|";
      assert multiset(Row(cells)) == multiset(Row(init)) + multiset(last) + multiset("|");
    }
  }

  function YearTitles(yearly: seq<(int, int)>): seq<string>
  {
    seq(|yearly|, i requires 0 <= i < |yearly| => IntToString(yearly[i].0))
  }

  /** `str(val).ljust(4)` for every count. */
  function CountCells(pairs: seq<(int, int)>): seq<string>
  {
    seq(|pairs|, i requires 0 <= i < |pairs| => LJust(IntToString(pairs[i].1), 4))
  }

  /** `month_names[month - 1]` is defined for months -11..12 (Python counts negative indices from the end). */
  predicate MonthsIndexable(monthly: seq<(int, int)>)
  {
    forall i :: 0 <= i < |monthly| ==> -11 <= monthly[i].0 <= 12
  }

  function MonthTitle(month: int): string
    requires -11 <= month <= 12
  {
    LJust(PyIndex(MonthNames, month - 1).value, 4)
  }

  /** Months 1..12 get their name padded to four; month 0 wraps round to "Dec". */
  lemma MonthTitleWraps(month: int)
    requires 0 <= month <= 12
    ensures 1 <= month ==> MonthTitle(month) == MonthNames[month - 1] + " "
    ensures month == 0 ==> MonthTitle(month) == "Dec "
  {
  }

  function MonthTitles(monthly: seq<(int, int)>): seq<string>
    requires MonthsIndexable(monthly)
  {
    seq(|monthly|, i requires 0 <= i < |monthly| => MonthTitle(monthly[i].0))
  }

  lemma {:induction false} CellsHaveNoBars(pairs: seq<(int, int)>)
    ensures forall i :: 0 <= i < |pairs| ==> '|' !in YearTitles(pairs)[i] && '|' !in CountCells(pairs)[i]
    ensures MonthsIndexable(pairs) ==> forall i :: 0 <= i < |pairs| ==> '|' !in MonthTitles(pairs)[i]
  {
    forall i | 0 <= i < |pairs|
      ensures '|' !in CountCells(pairs)[i]
    {
      var s := IntToString(pairs[i].1);
      var c := CountCells(pairs)[i];
      forall j | 0 <= j < |c| ensures c[j] != '|' {
        if j < |s| { assert c[j] == s[j]; }
      }
    }
  }

  /** Appends one cell and its closing bar to a row built so far. */
  lemma RowExtend(cells: seq<string>, i: nat)
    requires i < |cells|
    ensures Row(cells[..i + 1]) == Row(cells[..i]) + cells[i] + "|"
  {
    assert cells[..i + 1][..i] == cells[..i];
  }

  /**
    The year part of `show_launch_stats`: a title row of years and a value row
    of counts, each starting with "|" and gaining one "|" per pair.
   */
  method YearRows(yearly: seq<(int, int)>) returns (titleRow: string, valueRow: string)
    ensures titleRow == Row(YearTitles(yearly)) && valueRow == Row(CountCells(yearly))
    ensures multiset(titleRow)['|'] == |yearly| + 1 && multiset(valueRow)['|'] == |yearly| + 1
  {
    titleRow := "|";
    valueRow := "|";
    for i := 0 to |yearly|
      invariant titleRow == Row(YearTitles(yearly)[..i])
      invariant valueRow == Row(CountCells(yearly)[..i])
    {
      var (year, val) := yearly[i];
      RowExtend(YearTitles(yearly), i);
      RowExtend(CountCells(yearly), i);
      titleRow := titleRow + IntToString(year) + "|";
      valueRow := valueRow + LJust(IntToString(val), 4) + "|";
    }
    assert YearTitles(yearly)[..|yearly|] == YearTitles(yearly);
    assert CountCells(yearly)[..|yearly|] == CountCells(yearly);
    CellsHaveNoBars(yearly);
    RowBars(YearTitles(yearly));
    RowBars(CountCells(yearly));
  }

  /**
    The month part of `show_launch_stats`: a title row of month names padded to
    four and a value row of counts, each gaining one "|" per pair.
   */
  method MonthRows(monthly: seq<(int, int)>) returns (titleRow: string, valueRow: string)
    requires MonthsIndexable(monthly)
    ensures titleRow == Row(MonthTitles(monthly)) && valueRow == Row(CountCells(monthly))
    ensures multiset(titleRow)['|'] == |monthly| + 1 && multiset(valueRow)['|'] == |monthly| + 1
  {
    titleRow := "|";
    valueRow := "|";
    for i := 0 to |monthly|
      invariant titleRow == Row(MonthTitles(monthly)[..i])
      invariant valueRow == Row(CountCells(monthly)[..i])
    {
      var (month, val) := monthly[i];
      RowExtend(MonthTitles(monthly), i);
      RowExtend(CountCells(monthly), i);
      assert MonthTitles(monthly)[i] == LJust(PyIndex(MonthNames, month - 1).value, 4);
      assert CountCells(monthly)[i] == LJust(IntToString(val), 4);
      titleRow := titleRow + LJust(PyIndex(MonthNames, month - 1).value, 4) + "|";
      valueRow := valueRow + LJust(IntToString(val), 4) + "|";
    }
    assert MonthTitles(monthly)[..|monthly|] == MonthTitles(monthly);
    assert CountCells(monthly)[..|monthly|] == CountCells(monthly);
    MonthRowBars(monthly);
  }

  /** Each month row holds one "|" per pair plus the leading one. */
  lemma MonthRowBars(monthly: seq<(int, int)>)
    requires MonthsIndexable(monthly)
    ensures multiset(Row(MonthTitles(monthly)))['|'] == |monthly| + 1
    ensures multiset(Row(CountCells(monthly)))['|'] == |monthly| + 1
  {
    CellsHaveNoBars(monthly);
    RowBars(MonthTitles(monthly));
    RowBars(CountCells(monthly));
  }

  // ---------------------------------------------------------------------------
  // The terminal

  /** What the terminal shows: a printed line, or one of the record views (whose field-by-field text is not modelled). */
  datatype Event =
    | Say(text: string)
    | LaunchpadInfo(launchpad: Record)
    | RocketInfo(rocket: Record, successRate: Option<(int, int)>)
    | LaunchInfo(launch: Record, rocketName: string)

  /** The answers not yet typed and everything printed so far. */
  datatype Session = Session(pending: seq<string>, printed: seq<Event>)

  /** The outcome of one prompt: the interpreted answer, or end of input (`input()` raising EOFError). */
  datatype Reply = Answered(choice: Choice) | NoInput

  function Print(s: Session, events: seq<Event>): Session
  {
    s.(printed := s.printed + events)
  }

  function SayAll(lines: seq<string>): (events: seq<Event>)
    ensures |events| == |lines|
  {
    seq(|lines|, i requires 0 <= i < |lines| => Say(lines[i]))
  }

  function PromptEvents(message: string, mlist: seq<string>, default: int, askExit: bool): seq<Event>
  {
    [Say(message)] + SayAll(MenuLines(mlist, default)) + (if askExit then [Say(ExitHint)] else [])
  }

  /**
    One call of `ask_user_choice`: print the message, the menu and the exit
    hint, then read one answer. Its loop never repeats, since every path
    through the body returns or exits.
   */
  function Ask(s: Session, message: string, mlist: seq<string>, default: int, askExit: bool): (r: (Reply, Session))
    ensures |r.1.pending| == if s.pending == [] then 0 else |s.pending| - 1
    ensures r.0 == NoInput <==> s.pending == []
  {
    var shown := Print(s, PromptEvents(message, mlist, default, askExit));
    if s.pending == [] then (NoInput, shown)
    else (Answered(Interpret(s.pending[0], |mlist|, default)), shown.(pending := s.pending[1..]))
  }

  /**
    What `show_launch_stats` prints: the year table, then the month table. A
    month key outside -11..12 raises IndexError while the month rows are being
    built, after the month heading has been printed.
   */
  function StatsEvents(yearly: seq<(int, int)>, monthly: seq<(int, int)>): (events: seq<Event>)
    ensures |events| == if MonthsIndexable(monthly) then 6 else 4
    ensures events[..4] == [Say("Statistics by years:"), Say(Row(YearTitles(yearly))), Say(Row(CountCells(yearly))),
      Say("Statistics by months:")]
  {
    var years := [Say("Statistics by years:"), Say(Row(YearTitles(yearly))), Say(Row(CountCells(yearly))),
      Say("Statistics by months:")];
    if MonthsIndexable(monthly) then years + [Say(Row(MonthTitles(monthly))), Say(Row(CountCells(monthly)))]
    else years
  }

  /** The console manager; its state is the terminal it talks to. */
  class TextUIManager {
    var pending: seq<string>
    var printed: seq<Event>

    function State(): Session
      reads this
    {
      Session(pending, printed)
    }

    constructor(answers: seq<string>)
      ensures State() == Session(answers, [])
    {
      pending := answers;
      printed := [];
    }

    method Say(message: string)
      modifies this
      ensures State() == Print(old(State()), [Event.Say(message)])
    {
      printed := printed + [Event.Say(message)];
    }

    method Separator()
      modifies this
      ensures State() == Print(old(State()), [Event.Say(SeparatorLine)])
    {
      Say(SeparatorLine);
    }

    method Show(view: Event)
      modifies this
      ensures State() == Print(old(State()), [view])
    {
      printed := printed + [view];
    }

    method AskUserChoice(message: string, mlist: seq<string>, default: int, askExit: bool) returns (reply: Reply)
      modifies this
      ensures (reply, State()) == Ask(old(State()), message, mlist, default, askExit)
    {
      var lines := RenderMenu(mlist, default);
      var hint := if askExit then [Event.Say(ExitHint)] else [];
      printed := printed + ([Event.Say(message)] + SayAll(lines) + hint);
      if pending == [] {
        reply := NoInput;
      } else {
        var answer := pending[0];
        pending := pending[1..];
        reply := Answered(Interpret(answer, |mlist|, default));
      }
    }

    /** `completed` is false when the month rows raised IndexError. */
    method ShowLaunchStats(yearly: seq<(int, int)>, monthly: seq<(int, int)>) returns (completed: bool)
      modifies this
      ensures completed == MonthsIndexable(monthly)
      ensures State() == Print(old(State()), StatsEvents(yearly, monthly))
    {
      var yearTitles, yearValues := YearRows(yearly);
      var years := [Event.Say("Statistics by years:"), Event.Say(yearTitles), Event.Say(yearValues),
        Event.Say("Statistics by months:")];
      if !MonthsIndexable(monthly) {
        printed := printed + years;
        return false;
      }
      var monthTitles, monthValues := MonthRows(monthly);
      printed := printed + (years + [Event.Say(monthTitles), Event.Say(monthValues)]);
      return true;
    }
  }
}
