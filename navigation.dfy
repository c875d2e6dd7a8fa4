/**
  The navigation controller (spacexexplorer/main_manager.py): the menus it
  builds from the rocket and launchpad summaries, the views it shows, and the
  loops that prompt the user until a view has been shown, the user exits, the
  input ends or an exception escapes.

  Dispatch targets are tags (Action, FilterArgs) rather than stored callables.
  What the controller reads from the record store and from the counters built
  beside it (`rocket_info`, `launchpad_info`, `launch_stats`,
  `filter_launches`) is given as input in a Sources value.
 */
module Navigation {
  import opened Builtins
  import opened TextUI

  /** The views of the main menu. */
  datatype Action = AboutCompany | BrowseLaunches | BrowseLaunchpads | BrowseRockets | ShowLaunchStats

  /** The keyword arguments a launches-menu entry passes to `filter_launches`. */
  datatype FilterArgs = AllLaunches | SuccessIs(success: bool) | RocketIs(rocket: string) | LaunchpadIs(launchpad: string)

  /** An entry of `rocket_info` or `launchpad_info`. */
  datatype Summary = Summary(name: string, successfulLaunches: int, totalLaunches: int)

  /**
    How a view or loop ends: normally, through `sys.exit('Bye!')`, with an
    exception escaping (IndexError, KeyError, TypeError), or at end of input.
   */
  datatype Flow = Done | Exited | Crashed(error: string) | EndOfInput

  /** One round of a prompting loop: go round again from a new terminal state, or stop. */
  datatype Step = Continue(next: Session) | Stop(last: Session, flow: Flow)

  /** What the controller reads from the store and its counters. */
  datatype Sources = Sources(
    company: Record,
    rockets: seq<Record>,
    launchpads: Option<seq<Record>>,
    filterLaunches: FilterArgs -> seq<Record>,
    rocketInfo: Dict<string, Summary>,
    launchpadInfo: Dict<string, Summary>,
    yearStats: map<int, int>,
    monthStats: map<int, int>)

  const Greeting: string := "This is a SpaceX info app"
  const ActionPrompt: string := "\nChoose an action by typing a number and pressing [ENTER]:"
  const LaunchpadPrompt: string := "\nChoose a launchpad by typing a number and pressing [ENTER]:"
  const RocketPrompt: string := "\nChoose a rocket by typing a number and pressing [ENTER]:"
  const DatePrompt: string := "Choose date by typing number and pressing [ENTER]:"
  const InvalidInput: string := "Input was not valid, please enter a valid number!"
  const NoLaunches: string := "No launches found!"

  // ---------------------------------------------------------------------------
  // Menus

  const MainMenu: seq<(string, Action)> := [
    ("About company", AboutCompany),
    ("Browse launches", BrowseLaunches),
    ("Browse launchpads", BrowseLaunchpads),
    ("Browse rockets", BrowseRockets),
    ("Show launch statistics", ShowLaunchStats)
  ]

  /** The labels of a menu, entry by entry. */
  function Labels<T>(menu: seq<(string, T)>): (labels: seq<string>)
    ensures |labels| == |menu|
    ensures forall i :: 0 <= i < |menu| ==> labels[i] == menu[i].0
  {
    seq(|menu|, i requires 0 <= i < |menu| => menu[i].0)
  }

  /** The main menu offers exactly these five labels, in this order. */
  lemma MainChoices()
    ensures Labels(MainMenu) ==
      ["About company", "Browse launches", "Browse launchpads", "Browse rockets", "Show launch statistics"]
  {
  }

  const FixedLaunchEntries: seq<(string, FilterArgs)> :=
    [("All", AllLaunches), ("Successful", SuccessIs(true)), ("Failed", SuccessIs(false))]

  function RocketEntries(info: Dict<string, Summary>): seq<(string, FilterArgs)>
  {
    seq(|info|, i requires 0 <= i < |info| => ("By " + info[i].1.name + " rocket", RocketIs(info[i].0)))
  }

  function LaunchpadEntries(info: Dict<string, Summary>): seq<(string, FilterArgs)>
  {
    seq(|info|, i requires 0 <= i < |info| => ("By " + info[i].1.name, LaunchpadIs(info[i].0)))
  }

  /** The launches menu `define_menus` builds. */
  function LaunchesMenu(rocketInfo: Dict<string, Summary>, launchpadInfo: Dict<string, Summary>): (menu: seq<(string, FilterArgs)>)
    ensures |menu| == 3 + |rocketInfo| + |launchpadInfo|
    ensures menu[..3] == FixedLaunchEntries
  {
    FixedLaunchEntries + RocketEntries(rocketInfo) + LaunchpadEntries(launchpadInfo)
  }

  /**
    All, Successful and Failed come first; then one entry per rocket, in the
    order of `rocket_info`; then one per launchpad, in the order of
    `launchpad_info`.
   */
  lemma LaunchesMenuLayout(rocketInfo: Dict<string, Summary>, launchpadInfo: Dict<string, Summary>)
    ensures var menu := LaunchesMenu(rocketInfo, launchpadInfo);
      && |menu| == 3 + |rocketInfo| + |launchpadInfo|
      && menu[0] == ("All", AllLaunches)
      && menu[1] == ("Successful", SuccessIs(true))
      && menu[2] == ("Failed", SuccessIs(false))
      && (forall i :: 0 <= i < |rocketInfo| ==>
            menu[3 + i] == ("By " + rocketInfo[i].1.name + " rocket", RocketIs(rocketInfo[i].0)))
      && (forall j :: 0 <= j < |launchpadInfo| ==>
            menu[3 + |rocketInfo| + j] == ("By " + launchpadInfo[j].1.name, LaunchpadIs(launchpadInfo[j].0)))
  {
  }

  /** The names of a summary dict, in its order: the rockets and launchpads menus. */
  function Names(info: Dict<string, Summary>): (names: seq<string>)
    ensures |names| == |info|
    ensures forall i :: 0 <= i < |info| ==> names[i] == info[i].1.name
  {
    seq(|info|, i requires 0 <= i < |info| => info[i].1.name)
  }

  // ---------------------------------------------------------------------------
  // View helpers

  /** `date.split('T')[0]`: the longest prefix without a 'T'. */
  function DateLabel(date: string): (prefix: string)
    ensures prefix <= date
    ensures 'T' !in prefix
    ensures |prefix| < |date| ==> date[|prefix|] == 'T'
  {
    if date == [] || date[0] == 'T' then []
    else [date[0]] + DateLabel(date[1..])
  }

  predicate AllDated(launches: seq<Record>)
  {
    forall i :: 0 <= i < |launches| ==> "date_local" in launches[i]
  }

  /** One date label per launch, in the order of the launches. */
  function DateMenu(launches: seq<Record>): (labels: seq<string>)
    requires AllDated(launches)
    ensures |labels| == |launches|
    ensures forall i :: 0 <= i < |launches| ==> labels[i] == DateLabel(launches[i]["date_local"])
  {
    seq(|launches|, i requires 0 <= i < |launches| && AllDated(launches) => DateLabel(launches[i]["date_local"]))
  }

  /** The first record whose field equals the value, if any. */
  function FirstMatch(records: seq<Record>, field: string, value: string): (r: Option<nat>)
    ensures r.Some? ==> r.value < |records| && Get(records[r.value], field) == Some(value)
    ensures r.Some? ==> forall j :: 0 <= j < r.value ==> Get(records[j], field) != Some(value)
    ensures r.None? ==> forall j :: 0 <= j < |records| ==> Get(records[j], field) != Some(value)
  {
    if records == [] then None
    else if Get(records[0], field) == Some(value) then Some(0)
    else match FirstMatch(records[1..], field, value)
      case None => None
      case Some(i) => Some(i + 1)
  }

  /** The `for ... if ... break` search of the rockets and launchpads views. */
  method FindFirst(records: seq<Record>, field: string, value: string) returns (found: Option<nat>)
    ensures found == FirstMatch(records, field, value)
  {
    found := None;
    var i := 0;
    while i < |records|
      invariant 0 <= i <= |records|
      invariant forall j :: 0 <= j < i ==> Get(records[j], field) != Some(value)
    {
      if Get(records[i], field) == Some(value) {
        found := Some(i);
        return;
      }
      i := i + 1;
    }
  }

  /** The success rate is defined only for a rocket with at least one launch; it is kept as a fraction. */
  function SuccessRate(extras: Summary): (rate: Option<(int, int)>)
    ensures rate.Some? <==> extras.totalLaunches > 0
    ensures rate.Some? ==> rate.value == (extras.successfulLaunches, extras.totalLaunches)
  {
    if extras.totalLaunches > 0 then Some((extras.successfulLaunches, extras.totalLaunches)) else None
  }

  /** `rocket_info[launch.get('rocket')]['name']`; None stands for a KeyError. */
  function RocketName(rocketInfo: Dict<string, Summary>, launch: Record): (name: Option<string>)
    ensures name.Some? <==> "rocket" in launch && exists i :: 0 <= i < |rocketInfo| && rocketInfo[i].0 == launch["rocket"]
    ensures name.Some? ==> exists i :: 0 <= i < |rocketInfo| && rocketInfo[i].0 == launch["rocket"] && rocketInfo[i].1.name == name.value
  {
    match Get(launch, "rocket")
    case None => None
    case Some(id) =>
      match Lookup(rocketInfo, id)
      case None => None
      case Some(summary) => Some(summary.name)
  }

  /**
    In a dict with distinct keys (as `rocket_info` is), a launch naming the
    key of entry i gets entry i's name.
   */
  lemma RocketNameOfEntry(rocketInfo: Dict<string, Summary>, launch: Record, i: nat)
    requires DistinctKeys(rocketInfo) && i < |rocketInfo|
    requires "rocket" in launch && launch["rocket"] == rocketInfo[i].0
    ensures RocketName(rocketInfo, launch) == Some(rocketInfo[i].1.name)
  {
  }

  lemma MinKeyExists(keys: set<int>)
    requires |keys| > 0
    ensures exists k :: k in keys && forall x :: x in keys ==> k <= x
    decreases |keys|
  {
    var y :| y in keys by {
      if forall x :: x !in keys {
        assert false;
      }
    }
    var rest := keys - {y};
    if |rest| == 0 {
      forall x | x in keys ensures y <= x {
      }
    } else {
      MinKeyExists(rest);
      var k :| k in rest && forall x :: x in rest ==> k <= x;
      var least := if y < k then y else k;
      forall x | x in keys ensures least <= x {
        if x != y { assert x in rest; }
      }
      assert least in keys;
    }
  }

  function MinKey(keys: set<int>): (k: int)
    requires |keys| > 0
    ensures k in keys && forall x :: x in keys ==> k <= x
  {
    MinKeyExists(keys);
    var k :| k in keys && forall x :: x in keys ==> k <= x;
    k
  }

  lemma SortedCons(k: int, v: int, m: map<int, int>, tail: seq<(int, int)>)
    requires k in m && m[k] == v
    requires forall x :: x in m ==> k <= x
    requires forall i, j :: 0 <= i < j < |tail| ==> tail[i].0 < tail[j].0
    requires forall i :: 0 <= i < |tail| ==> tail[i].0 in m - {k} && (m - {k})[tail[i].0] == tail[i].1
    requires forall x :: x in m - {k} ==> (x, (m - {k})[x]) in tail
    ensures var items := [(k, v)] + tail;
      && (forall i, j :: 0 <= i < j < |items| ==> items[i].0 < items[j].0)
      && (forall i :: 0 <= i < |items| ==> items[i].0 in m && m[items[i].0] == items[i].1)
      && (forall x :: x in m ==> (x, m[x]) in items)
  {
    var items := [(k, v)] + tail;
    forall x | x in m ensures (x, m[x]) in items {
      if x != k {
        assert x in m - {k};
        var i :| 0 <= i < |tail| && tail[i] == (x, (m - {k})[x]);
        assert items[i + 1] == (x, m[x]);
      }
    }
    forall i, j | 0 <= i < j < |items| ensures items[i].0 < items[j].0 {
      if i == 0 {
        assert items[j] == tail[j - 1];
        assert items[j].0 in m - {k};
      }
    }
  }

  /** The (key, count) pairs of a counter, sorted strictly ascending by key, as `sorted(d.items())` gives them. */
  function SortedItems(m: map<int, int>): (items: seq<(int, int)>)
    ensures |items| == |m|
    ensures forall i, j :: 0 <= i < j < |items| ==> items[i].0 < items[j].0
    ensures forall i :: 0 <= i < |items| ==> items[i].0 in m && m[items[i].0] == items[i].1
    ensures forall k :: k in m ==> (k, m[k]) in items
    decreases |m|
  {
    if |m.Keys| == 0 then
      []
    else
      var k := MinKey(m.Keys);
      var tail := SortedItems(m - {k});
      SortedCons(k, m[k], m, tail);
      [(k, m[k])] + tail
  }

  /** Month keys for which `month_names[month - 1]` does not raise. */
  predicate MonthKeysIndexable(m: map<int, int>)
  {
    forall k :: k in m ==> -11 <= k <= 12
  }

  /** The sorted month pairs can all be titled exactly when every month key can. */
  lemma SortedMonthsIndexable(m: map<int, int>)
    ensures MonthsIndexable(SortedItems(m)) <==> MonthKeysIndexable(m)
  {
    if MonthKeysIndexable(m) {
      KeysInRangeTitled(m);
    } else {
      KeyOutOfRangeUntitled(m);
    }
  }

  lemma KeysInRangeTitled(m: map<int, int>)
    requires MonthKeysIndexable(m)
    ensures MonthsIndexable(SortedItems(m))
  {
    var items := SortedItems(m);
    forall i | 0 <= i < |items| ensures -11 <= items[i].0 <= 12 {
      assert items[i].0 in m;
    }
  }

  lemma KeyOutOfRangeUntitled(m: map<int, int>)
    requires !MonthKeysIndexable(m)
    ensures !MonthsIndexable(SortedItems(m))
  {
    var items := SortedItems(m);
    var k :| k in m && !(-11 <= k <= 12);
    assert (k, m[k]) in items;
    var i :| 0 <= i < |items| && items[i] == (k, m[k]);
    assert !(-11 <= items[i].0 <= 12);
  }

  // ---------------------------------------------------------------------------
  // The views and loops, one round at a time

  /** What `ask_user_choice` returns for an index or default choice. */
  function Chosen(choice: Choice, default: int): int
  {
    match choice
    case Index(n) => n
    case _ => default
  }

  function SayInvalid(s: Session): Session
  {
    Print(s, [Say(InvalidInput)])
  }

  /**
    One round of `launches_loop`: choose a filter; an empty result ends the loop
    with "No launches found!" and no date prompt; otherwise choose a date and
    show that launch. A None choice at either prompt goes round again.
   */
  function LaunchesStep(src: Sources, menu: seq<(string, FilterArgs)>, s: Session): (r: Step)
    ensures r.Continue? ==> |r.next.pending| < |s.pending|
    ensures r.Stop? ==> |r.last.pending| <= |s.pending|
    ensures r.Stop? && r.flow == EndOfInput ==> r.last.pending == []
  {
    var (reply, s1) := Ask(s, ActionPrompt, Labels(menu), -1, true);
    match reply
    case NoInput => Stop(s1, EndOfInput)
    case Answered(choice) =>
      if choice == Exit then Stop(s1, Exited)
      else if choice == Invalid then Continue(SayInvalid(s1))
      else match PyIndex(menu, Chosen(choice, -1))
        case None => Stop(s1, Crashed("IndexError"))
        case Some(entry) => FilterStep(src, entry.1, s1)
  }

  /**
    The middle of a `launches_loop` round: filter the launches; no launch ends
    the loop with "No launches found!", a launch without a date raises KeyError.
   */
  function FilterStep(src: Sources, args: FilterArgs, s: Session): (r: Step)
    ensures r.Continue? ==> |r.next.pending| < |s.pending|
    ensures r.Stop? ==> |r.last.pending| <= |s.pending|
    ensures r.Stop? && r.flow == EndOfInput ==> r.last.pending == []
  {
    var filtered := src.filterLaunches(args);
    if |filtered| < 1 then Stop(Print(s, [Say(SeparatorLine), Say(NoLaunches), Say(SeparatorLine)]), Done)
    else if !AllDated(filtered) then Stop(s, Crashed("KeyError"))
    else DateStep(src, filtered, s)
  }

  /** The second half of a `launches_loop` round: choose a date among the filtered launches and show that launch. */
  function DateStep(src: Sources, filtered: seq<Record>, s: Session): (r: Step)
    requires AllDated(filtered)
    ensures r.Continue? ==> |r.next.pending| < |s.pending|
    ensures r.Stop? ==> |r.last.pending| <= |s.pending|
    ensures r.Stop? && r.flow == EndOfInput ==> r.last.pending == []
  {
    var (reply, s1) := Ask(s, DatePrompt, DateMenu(filtered), -1, true);
    match reply
    case NoInput => Stop(s1, EndOfInput)
    case Answered(choice) =>
      if choice == Exit then Stop(s1, Exited)
      else if choice == Invalid then Continue(SayInvalid(s1))
      else match PyIndex(filtered, Chosen(choice, -1))
        case None => Stop(s1, Crashed("IndexError"))
        case Some(launch) =>
          match RocketName(src.rocketInfo, launch)
          case None => Stop(s1, Crashed("KeyError"))
          case Some(name) => Stop(Print(s1, [LaunchInfo(launch, name)]), Done)
  }

  /** `launches_loop` run to its end. */
  function LaunchesRun(src: Sources, menu: seq<(string, FilterArgs)>, s: Session): (r: (Session, Flow))
    ensures |r.0.pending| <= |s.pending|
    ensures r.1 == EndOfInput ==> r.0.pending == []
    decreases |s.pending|
  {
    match LaunchesStep(src, menu, s)
    case Continue(next) => LaunchesRun(src, menu, next)
    case Stop(last, flow) => (last, flow)
  }

  /**
    `show_rockets_menu`: choose a rocket name and show the first rocket record
    with that name, with its success rate when it has launches; an unmatched
    name shows nothing.
   */
  function RocketsView(src: Sources, s: Session): (r: (Session, Flow))
    ensures |r.0.pending| == if s.pending == [] then 0 else |s.pending| - 1
    ensures r.1 == EndOfInput <==> s.pending == []
  {
    var menu := Names(src.rocketInfo);
    var (reply, s1) := Ask(s, RocketPrompt, menu, -1, true);
    match reply
    case NoInput => (s1, EndOfInput)
    case Answered(choice) =>
      if choice == Exit then (s1, Exited)
      else if choice == Invalid then (SayInvalid(s1), Done)
      else if src.rockets == [] then (s1, Done)
      else match PyIndex(menu, Chosen(choice, -1))
        case None => (s1, Crashed("IndexError"))
        case Some(name) =>
          match FirstMatch(src.rockets, "name", name)
          case None => (s1, Done)
          case Some(i) =>
            var rocket := src.rockets[i];
            match Get(rocket, "id")
            case None => (s1, Crashed("KeyError"))
            case Some(id) =>
              match Lookup(src.rocketInfo, id)
              case None => (s1, Crashed("KeyError"))
              case Some(extras) => (Print(s1, [RocketInfo(rocket, SuccessRate(extras))]), Done)
  }

  /**
    `show_launchpads_menu`: choose a launchpad name and show the first
    launchpad record whose full name matches. The collection it iterates is
    what the store returned, and iterating None raises a TypeError.
   */
  function LaunchpadsView(src: Sources, s: Session): (r: (Session, Flow))
    ensures |r.0.pending| == if s.pending == [] then 0 else |s.pending| - 1
    ensures r.1 == EndOfInput <==> s.pending == []
  {
    var menu := Names(src.launchpadInfo);
    var (reply, s1) := Ask(s, LaunchpadPrompt, menu, -1, true);
    match reply
    case NoInput => (s1, EndOfInput)
    case Answered(choice) =>
      if choice == Exit then (s1, Exited)
      else if choice == Invalid then (SayInvalid(s1), Done)
      else match src.launchpads
        case None => (s1, Crashed("TypeError"))
        case Some(all) =>
          if all == [] then (s1, Done)
          else match PyIndex(menu, Chosen(choice, -1))
            case None => (s1, Crashed("IndexError"))
            case Some(name) =>
              match FirstMatch(all, "full_name", name)
              case None => (s1, Done)
              case Some(i) => (Print(s1, [LaunchpadInfo(all[i])]), Done)
  }

  /** The company properties `about_info` prints, in order. */
  const CompanyProperties: seq<string> := ["name", "founded", "summary", "employees", "vehicles", "ceo"]

  function UpperChar(c: char): char
  {
    if 'a' <= c <= 'z' then (c as int - 'a' as int + 'A' as int) as char else c
  }

  function LowerChar(c: char): char
  {
    if 'A' <= c <= 'Z' then (c as int - 'A' as int + 'a' as int) as char else c
  }

  /** `s.capitalize()` on ASCII text: the first letter upper case, the rest lower case. */
  function Capitalize(s: string): (r: string)
    ensures |r| == |s|
    ensures s != [] ==> r[0] == UpperChar(s[0])
    ensures forall j :: 0 < j < |s| ==> r[j] == LowerChar(s[j])
  {
    if s == [] then [] else [UpperChar(s[0])] + seq(|s| - 1, j requires 0 <= j < |s| - 1 => LowerChar(s[j + 1]))
  }

  /** `f"{record.get(field)}"`: the value, or "None" when the field is absent. */
  function FieldText(record: Record, field: string): (text: string)
    ensures field in record ==> text == record[field]
    ensures field !in record ==> text == "None"
  {
    match Get(record, field)
    case None => "None"
    case Some(v) => v
  }

  function AboutLine(company: Record, property: string): string
  {
    Capitalize(property) + ": " + FieldText(company, property)
  }

  function AboutLines(company: Record): (lines: seq<string>)
    ensures |lines| == |CompanyProperties|
    ensures forall i :: 0 <= i < |lines| ==> lines[i] == AboutLine(company, CompanyProperties[i])
  {
    seq(|CompanyProperties|, i requires 0 <= i < |CompanyProperties| => AboutLine(company, CompanyProperties[i]))
  }

  /** Capitalising a word already in lower case only raises its first letter. */
  lemma CapitalizeLowerWord(w: string)
    requires LowerWord(w)
    ensures Capitalize(w) == [UpperChar(w[0])] + w[1..]
  {
    var r := Capitalize(w);
    assert forall j :: 0 < j < |w| ==> r[j] == w[j];
  }

  /** `about_info`: the company lines between two separators. */
  function AboutView(src: Sources, s: Session): (r: Session)
    ensures r.pending == s.pending
    ensures |r.printed| == |s.printed| + |CompanyProperties| + 2
    ensures r.printed[..|s.printed|] == s.printed
    ensures r.printed[|s.printed|] == r.printed[|r.printed| - 1] == Say(SeparatorLine)
  {
    Print(s, [Say(SeparatorLine)] + SayAll(AboutLines(src.company)) + [Say(SeparatorLine)])
  }

  /** A terminal that received exactly the about lines between two separators is the one the about view leaves. */
  lemma AboutViewPrints(src: Sources, s: Session, printed: seq<Event>)
    requires printed == s.printed + [Say(SeparatorLine)] + SayAll(AboutLines(src.company)) + [Say(SeparatorLine)]
    ensures AboutView(src, s) == Session(s.pending, printed)
  {
    var events := [Say(SeparatorLine)] + SayAll(AboutLines(src.company)) + [Say(SeparatorLine)];
    assert printed == s.printed + events;
    assert AboutView(src, s) == Print(s, events);
  }

  /**
    Between the separators, line i names the i-th company property with its
    first letter raised, then ": ", then the company's value for it, or "None"
    when the company record lacks that field.
   */
  lemma AboutViewLines(src: Sources, s: Session, i: nat)
    requires i < |CompanyProperties|
    ensures var p := CompanyProperties[i];
      AboutView(src, s).printed[|s.printed| + 1 + i] ==
        Say([UpperChar(p[0])] + p[1..] + ": " + (if p in src.company then src.company[p] else "None"))
  {
    var p := CompanyProperties[i];
    CompanyPropertiesLower(i);
    CapitalizeLowerWord(p);
    var events := [Say(SeparatorLine)] + SayAll(AboutLines(src.company)) + [Say(SeparatorLine)];
    assert events[1 + i] == Say(AboutLine(src.company, p));
  }

  predicate LowerWord(w: string)
  {
    w != [] && forall j :: 0 <= j < |w| ==> 'a' <= w[j] <= 'z'
  }

  /** Every company property is a non-empty lower-case word. */
  lemma CompanyPropertiesLower(i: nat)
    requires i < |CompanyProperties|
    ensures LowerWord(CompanyProperties[i])
  {
    if i == 0 { assert LowerWord("name"); }
    else if i == 1 { assert LowerWord("founded"); }
    else if i == 2 { assert LowerWord("summary"); }
    else if i == 3 { assert LowerWord("employees"); }
    else if i == 4 { assert LowerWord("vehicles"); }
    else { assert LowerWord("ceo"); }
  }

  /**
    `show_launch_stats`: the year and month counters, each sorted by key, drawn
    as a table; a month key outside -11..12 ends the view with an IndexError.
   */
  function StatsView(src: Sources, s: Session): (r: (Session, Flow))
    ensures r.1 == Done <==> MonthKeysIndexable(src.monthStats)
    ensures r.1 != Done ==> r.1 == Crashed("IndexError")
  {
    SortedMonthsIndexable(src.monthStats);
    var monthly := SortedItems(src.monthStats);
    (Print(s, StatsEvents(SortedItems(src.yearStats), monthly)),
     if MonthsIndexable(monthly) then Done else Crashed("IndexError"))
  }

  /** Running the view a main-menu entry names. */
  function ActionRun(src: Sources, menu: seq<(string, FilterArgs)>, action: Action, s: Session): (r: (Session, Flow))
    ensures |r.0.pending| <= |s.pending|
    ensures r.1 == EndOfInput ==> r.0.pending == []
  {
    match action
    case AboutCompany => (AboutView(src, s), Done)
    case BrowseLaunches => LaunchesRun(src, menu, s)
    case BrowseLaunchpads => LaunchpadsView(src, s)
    case BrowseRockets => RocketsView(src, s)
    case ShowLaunchStats => StatsView(src, s)
  }

  /** One round of `main_loop`: a None choice prints the invalid-input message and dispatches nothing. */
  function MainStep(src: Sources, menu: seq<(string, FilterArgs)>, s: Session): (r: Step)
    ensures r.Continue? ==> |r.next.pending| < |s.pending|
    ensures r.Stop? ==> |r.last.pending| <= |s.pending|
    ensures r.Stop? && r.flow == EndOfInput ==> r.last.pending == []
  {
    var (reply, s1) := Ask(s, ActionPrompt, Labels(MainMenu), -1, true);
    match reply
    case NoInput => Stop(s1, EndOfInput)
    case Answered(choice) =>
      if choice == Exit then Stop(s1, Exited)
      else if choice == Invalid then Continue(SayInvalid(s1))
      else match PyIndex(MainMenu, Chosen(choice, -1))
        case None => Stop(s1, Crashed("IndexError"))
        case Some(entry) =>
          var (s2, flow) := ActionRun(src, menu, entry.1, s1);
          if flow == Done then Continue(s2) else Stop(s2, flow)
  }

  /** `main_loop` run to its end, which only an exit, an exception or the end of input brings. */
  function MainRun(src: Sources, menu: seq<(string, FilterArgs)>, s: Session): (r: (Session, Flow))
    ensures |r.0.pending| <= |s.pending|
    ensures r.1 == EndOfInput ==> r.0.pending == []
    decreases |s.pending|
  {
    match MainStep(src, menu, s)
    case Continue(next) => MainRun(src, menu, next)
    case Stop(last, flow) => (last, flow)
  }

  // ---------------------------------------------------------------------------
  // What the loops promise

  /** The terminal after a prompt with the exit hint and no default has been shown and answered. */
  function AfterPrompt(s: Session, message: string, mlist: seq<string>): (r: Session)
    requires s.pending != []
    ensures r.pending == s.pending[1..]
  {
    Session(s.pending[1..], s.printed + PromptEvents(message, mlist, -1, true))
  }

  /** A filter choice that is not a valid number prints the invalid-input message and asks again, filtering nothing. */
  lemma InvalidLaunchChoiceReprompts(src: Sources, menu: seq<(string, FilterArgs)>, s: Session)
    requires s.pending != [] && Interpret(s.pending[0], |menu|, -1) == Invalid
    ensures LaunchesRun(src, menu, s) == LaunchesRun(src, menu, SayInvalid(AfterPrompt(s, ActionPrompt, Labels(menu))))
  {
  }

  /**
    A filter that yields no launches ends `launches_loop` after that single
    answer: a separator, "No launches found!" and a separator are printed and
    no date is asked for.
   */
  lemma EmptyFilterEndsLaunches(src: Sources, menu: seq<(string, FilterArgs)>, s: Session, n: int)
    requires s.pending != [] && Interpret(s.pending[0], |menu|, -1) == Index(n)
    requires PyIndex(menu, n).Some? && src.filterLaunches(PyIndex(menu, n).value.1) == []
    ensures LaunchesRun(src, menu, s) ==
      (Print(AfterPrompt(s, ActionPrompt, Labels(menu)), [Say(SeparatorLine), Say(NoLaunches), Say(SeparatorLine)]), Done)
  {
  }

  /** A main-menu answer that is not a valid number prints the invalid-input message and dispatches no view. */
  lemma InvalidMainChoiceDispatchesNothing(src: Sources, menu: seq<(string, FilterArgs)>, s: Session)
    requires s.pending != [] && Interpret(s.pending[0], |MainMenu|, -1) == Invalid
    ensures MainRun(src, menu, s) == MainRun(src, menu, SayInvalid(AfterPrompt(s, ActionPrompt, Labels(MainMenu))))
  {
  }

  /** Typing 'e' at the main menu leaves the program straight away. */
  lemma ExitLeavesMainLoop(src: Sources, menu: seq<(string, FilterArgs)>, s: Session)
    requires s.pending != [] && s.pending[0] == "e"
    ensures MainRun(src, menu, s) == (AfterPrompt(s, ActionPrompt, Labels(MainMenu)), Exited)
  {
  }

  /** `main_loop` never returns normally: it ends only by exit, by an exception or at end of input. */
  lemma {:induction false} MainLoopNeverFinishes(src: Sources, menu: seq<(string, FilterArgs)>, s: Session)
    ensures MainRun(src, menu, s).1 != Done
    decreases |s.pending|
  {
    match MainStep(src, menu, s)
    case Continue(next) =>
      MainLoopNeverFinishes(src, menu, next);
    case Stop(last, flow) =>
  }

  /**
    The launchpads view crashes with a TypeError exactly when its collection is
    missing and the answer picks an entry: it builds its menu and prompts first.
   */
  lemma LaunchpadsCrashOnMissingCollection(src: Sources, s: Session)
    ensures LaunchpadsView(src, s).1 == Crashed("TypeError") <==>
      src.launchpads.None? && s.pending != [] && Interpret(s.pending[0], |src.launchpadInfo|, -1).Index?
  {
  }

  /**
    Choosing the n-th rocket name (counted from the end when n is negative)
    shows the first rocket record with that name, with the success rate of its
    `rocket_info` entry.
   */
  lemma RocketsViewShowsFirstMatch(src: Sources, s: Session, n: int, i: nat, extras: Summary)
    requires s.pending != [] && Interpret(s.pending[0], |src.rocketInfo|, -1) == Index(n)
    requires PyIndex(Names(src.rocketInfo), n).Some?
    requires FirstMatch(src.rockets, "name", PyIndex(Names(src.rocketInfo), n).value) == Some(i)
    requires "id" in src.rockets[i] && Lookup(src.rocketInfo, src.rockets[i]["id"]) == Some(extras)
    ensures RocketsView(src, s) ==
      (Print(AfterPrompt(s, RocketPrompt, Names(src.rocketInfo)), [RocketInfo(src.rockets[i], SuccessRate(extras))]), Done)
  {
  }

  /** A chosen rocket name that no rocket record carries shows nothing. */
  lemma RocketsViewUnmatchedShowsNothing(src: Sources, s: Session, n: int)
    requires s.pending != [] && Interpret(s.pending[0], |src.rocketInfo|, -1) == Index(n)
    requires PyIndex(Names(src.rocketInfo), n).Some?
    requires FirstMatch(src.rockets, "name", PyIndex(Names(src.rocketInfo), n).value) == None
    ensures RocketsView(src, s) == (AfterPrompt(s, RocketPrompt, Names(src.rocketInfo)), Done)
  {
  }

  // ---------------------------------------------------------------------------
  // The controller

  class MainManager {
    const sources: Sources
    const greeting: string
    var toExit: bool
    var mainMenu: seq<(string, Action)>
    var mainChoices: seq<string>
    var launchesMenu: seq<(string, FilterArgs)>
    var launchChoices: seq<string>

    /** The menus are the ones `define_menus` builds, and every choice list holds its menu's labels. */
    ghost predicate Valid()
      reads this
    {
      && mainMenu == MainMenu
      && mainChoices == Labels(mainMenu)
      && launchesMenu == LaunchesMenu(sources.rocketInfo, sources.launchpadInfo)
      && launchChoices == Labels(launchesMenu)
    }

    constructor(sources: Sources)
      ensures Valid() && this.sources == sources && greeting == Greeting && !toExit
    {
      this.sources := sources;
      greeting := Greeting;
      toExit := false;
      new;
      DefineMenus();
    }

    method DefineMenus()
      modifies this
      ensures Valid() && toExit == old(toExit)
    {
      mainMenu := MainMenu;
      mainChoices := Labels(mainMenu);
      launchesMenu := FixedLaunchEntries;
      var rocketInfo := sources.rocketInfo;
      for i := 0 to |rocketInfo|
        invariant mainMenu == MainMenu && mainChoices == Labels(mainMenu) && toExit == old(toExit)
        invariant launchesMenu == FixedLaunchEntries + RocketEntries(rocketInfo)[..i]
      {
        var name := rocketInfo[i].1.name;
        launchesMenu := launchesMenu + [("By " + name + " rocket", RocketIs(rocketInfo[i].0))];
      }
      assert RocketEntries(rocketInfo)[..|rocketInfo|] == RocketEntries(rocketInfo);
      var launchpadInfo := sources.launchpadInfo;
      for j := 0 to |launchpadInfo|
        invariant mainMenu == MainMenu && mainChoices == Labels(mainMenu) && toExit == old(toExit)
        invariant launchesMenu == FixedLaunchEntries + RocketEntries(rocketInfo) + LaunchpadEntries(launchpadInfo)[..j]
      {
        var name := launchpadInfo[j].1.name;
        launchesMenu := launchesMenu + [("By " + name, LaunchpadIs(launchpadInfo[j].0))];
      }
      assert LaunchpadEntries(launchpadInfo)[..|launchpadInfo|] == LaunchpadEntries(launchpadInfo);
      launchChoices := Labels(launchesMenu);
    }

    method AboutInfo(ui: TextUIManager)
      modifies ui
      ensures ui.State() == AboutView(sources, old(ui.State()))
    {
      ghost var lines := SayAll(AboutLines(sources.company));
      ui.Separator();
      ghost var printed1 := ui.printed;
      SayProperties(ui, sources.company);
      assert ui.printed == printed1 + lines;
      ui.Separator();
      AboutViewPrints(sources, old(ui.State()), ui.printed);
    }

    /** The loop of `about_info`: one line per company property. */
    method SayProperties(ui: TextUIManager, info: Record)
      modifies ui
      ensures ui.State() == Print(old(ui.State()), SayAll(AboutLines(info)))
    {
      for i := 0 to |CompanyProperties|
        invariant ui.pending == old(ui.pending)
        invariant ui.printed == old(ui.printed) + SayAll(AboutLines(info))[..i]
      {
        var prop := CompanyProperties[i];
        ui.Say(Capitalize(prop) + ": " + FieldText(info, prop));
        assert SayAll(AboutLines(info))[..i + 1] == SayAll(AboutLines(info))[..i] + [Say(AboutLine(info, prop))];
      }
      assert SayAll(AboutLines(info))[..|CompanyProperties|] == SayAll(AboutLines(info));
    }

    method ShowLaunchStatsView(ui: TextUIManager) returns (flow: Flow)
      modifies ui
      ensures (ui.State(), flow) == StatsView(sources, old(ui.State()))
    {
      var yearly := SortedItems(sources.yearStats);
      var monthly := SortedItems(sources.monthStats);
      var completed := ui.ShowLaunchStats(yearly, monthly);
      flow := if completed then Done else Crashed("IndexError");
    }

    method ShowLaunchpadsMenu(ui: TextUIManager) returns (flow: Flow)
      modifies ui
      ensures (ui.State(), flow) == LaunchpadsView(sources, old(ui.State()))
    {
      var allLps := sources.launchpads;
      var lpsMenu := Names(sources.launchpadInfo);
      var reply := ui.AskUserChoice(LaunchpadPrompt, lpsMenu, -1, true);
      if reply.NoInput? {
        return EndOfInput;
      }
      var choice := reply.choice;
      if choice == Exit {
        return Exited;
      }
      if choice == Invalid {
        ui.Say(InvalidInput);
        return Done;
      }
      if allLps.None? {
        return Crashed("TypeError");
      }
      if allLps.value == [] {
        return Done;
      }
      var chosenName := PyIndex(lpsMenu, Chosen(choice, -1));
      if chosenName.None? {
        return Crashed("IndexError");
      }
      var found := FindFirst(allLps.value, "full_name", chosenName.value);
      if found.Some? {
        ui.Show(LaunchpadInfo(allLps.value[found.value]));
      }
      return Done;
    }

    method ShowRocketsMenu(ui: TextUIManager) returns (flow: Flow)
      modifies ui
      ensures (ui.State(), flow) == RocketsView(sources, old(ui.State()))
    {
      var allRockets := sources.rockets;
      var rocketsMenu := Names(sources.rocketInfo);
      var reply := ui.AskUserChoice(RocketPrompt, rocketsMenu, -1, true);
      if reply.NoInput? {
        return EndOfInput;
      }
      var choice := reply.choice;
      if choice == Exit {
        return Exited;
      }
      if choice == Invalid {
        ui.Say(InvalidInput);
        return Done;
      }
      if allRockets == [] {
        return Done;
      }
      var chosenName := PyIndex(rocketsMenu, Chosen(choice, -1));
      if chosenName.None? {
        return Crashed("IndexError");
      }
      var found := FindFirst(allRockets, "name", chosenName.value);
      if found.None? {
        return Done;
      }
      var rocket := allRockets[found.value];
      var id := Get(rocket, "id");
      if id.None? {
        return Crashed("KeyError");
      }
      var extras := Lookup(sources.rocketInfo, id.value);
      if extras.None? {
        return Crashed("KeyError");
      }
      var rocketSuccessRate: Option<(int, int)> := None;
      if extras.value.totalLaunches > 0 {
        rocketSuccessRate := Some((extras.value.successfulLaunches, extras.value.totalLaunches));
      }
      ui.Show(RocketInfo(rocket, rocketSuccessRate));
      return Done;
    }

    method LaunchesLoop(ui: TextUIManager) returns (flow: Flow)
      requires Valid()
      modifies ui
      ensures (ui.State(), flow) == LaunchesRun(sources, launchesMenu, old(ui.State()))
    {
      while true
        invariant LaunchesRun(sources, launchesMenu, ui.State()) == LaunchesRun(sources, launchesMenu, old(ui.State()))
        decreases |ui.pending|
      {
        var step := LaunchesRound(ui);
        if step.Stop? {
          return step.flow;
        }
      }
    }

    /** The body of `launches_loop`'s `while True`, once. */
    method LaunchesRound(ui: TextUIManager) returns (step: Step)
      requires Valid()
      modifies ui
      ensures step.Continue? ==> step.next == ui.State()
      ensures step.Stop? ==> step.last == ui.State()
      ensures step == LaunchesStep(sources, launchesMenu, old(ui.State()))
    {
      var reply := ui.AskUserChoice(ActionPrompt, launchChoices, -1, true);
      if reply.NoInput? {
        return Stop(ui.State(), EndOfInput);
      }
      var choice := reply.choice;
      if choice == Exit {
        return Stop(ui.State(), Exited);
      }
      if choice == Invalid {
        ui.Say(InvalidInput);
        return Continue(ui.State());
      }
      var entry := PyIndex(launchesMenu, Chosen(choice, -1));
      if entry.None? {
        return Stop(ui.State(), Crashed("IndexError"));
      }
      step := FilterAndChoose(ui, entry.value.1);
    }

    /** The filter call of `launches_loop` and what follows it in the round. */
    method FilterAndChoose(ui: TextUIManager, args: FilterArgs) returns (step: Step)
      modifies ui
      ensures step.Continue? ==> step.next == ui.State()
      ensures step.Stop? ==> step.last == ui.State()
      ensures step == FilterStep(sources, args, old(ui.State()))
    {
      var filtered := sources.filterLaunches(args);
      if |filtered| < 1 {
        ui.Separator();
        ui.Say(NoLaunches);
        ui.Separator();
        return Stop(ui.State(), Done);
      }
      if !AllDated(filtered) {
        return Stop(ui.State(), Crashed("KeyError"));
      }
      step := ChooseLaunch(ui, filtered);
    }

    /** The date prompt of `launches_loop` and the launch it shows. */
    method ChooseLaunch(ui: TextUIManager, filtered: seq<Record>) returns (step: Step)
      requires AllDated(filtered)
      modifies ui
      ensures step.Continue? ==> step.next == ui.State()
      ensures step.Stop? ==> step.last == ui.State()
      ensures step == DateStep(sources, filtered, old(ui.State()))
    {
      var launchListMenu := DateMenu(filtered);
      var replyLaunch := ui.AskUserChoice(DatePrompt, launchListMenu, -1, true);
      if replyLaunch.NoInput? {
        return Stop(ui.State(), EndOfInput);
      }
      var choiceLaunch := replyLaunch.choice;
      if choiceLaunch == Exit {
        return Stop(ui.State(), Exited);
      }
      if choiceLaunch == Invalid {
        ui.Say(InvalidInput);
        return Continue(ui.State());
      }
      var launch := PyIndex(filtered, Chosen(choiceLaunch, -1));
      if launch.None? {
        return Stop(ui.State(), Crashed("IndexError"));
      }
      var rocketName := RocketName(sources.rocketInfo, launch.value);
      if rocketName.None? {
        return Stop(ui.State(), Crashed("KeyError"));
      }
      ui.Show(LaunchInfo(launch.value, rocketName.value));
      return Stop(ui.State(), Done);
    }

    method Dispatch(ui: TextUIManager, action: Action) returns (flow: Flow)
      requires Valid()
      modifies ui
      ensures (ui.State(), flow) == ActionRun(sources, launchesMenu, action, old(ui.State()))
    {
      match action
      case AboutCompany =>
        AboutInfo(ui);
        flow := Done;
      case BrowseLaunches =>
        flow := LaunchesLoop(ui);
      case BrowseLaunchpads =>
        flow := ShowLaunchpadsMenu(ui);
      case BrowseRockets =>
        flow := ShowRocketsMenu(ui);
      case ShowLaunchStats =>
        flow := ShowLaunchStatsView(ui);
    }

    method MainLoop(ui: TextUIManager) returns (flow: Flow)
      requires Valid()
      modifies ui
      ensures (ui.State(), flow) == MainRun(sources, launchesMenu, Print(old(ui.State()), [Say(greeting)]))
    {
      ui.Say(greeting);
      ghost var start := ui.State();
      while true
        invariant MainRun(sources, launchesMenu, ui.State()) == MainRun(sources, launchesMenu, start)
        decreases |ui.pending|
      {
        ghost var before := ui.State();
        var reply := ui.AskUserChoice(ActionPrompt, mainChoices, -1, true);
        if reply.NoInput? {
          return EndOfInput;
        }
        var choice := reply.choice;
        if choice == Exit {
          return Exited;
        }
        if choice == Invalid {
          ui.Say(InvalidInput);
          continue;
        }
        var entry := PyIndex(mainMenu, Chosen(choice, -1));
        if entry.None? {
          return Crashed("IndexError");
        }
        var f := Dispatch(ui, entry.value.1);
        if f != Done {
          return f;
        }
      }
    }
  }
}
