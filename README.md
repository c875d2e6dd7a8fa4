# SpaceX explorer — a verified model of its console core

SpaceX explorer is a small console application. It downloads SpaceX
collections (company, launches, landing pads, rockets) into JSON files in a
cache directory. It then lets the user browse them through numbered menus:
company facts, launches filtered by outcome, rocket or launchpad, launchpad
and rocket details, and a year/month launch statistics table.

This project models three pieces of the application in Dafny and proves
properties about them:

- `builtins.dfy` (module `Builtins`): the Python behaviour the code depends
  on. This covers negative indexing, `str.ljust`, `str(int)`, `int(str)`,
  insertion-ordered dicts, `dict.get` and `d[key]`.
- `textui.dfy` (module `TextUI`): the console manager.
  - How a typed answer becomes a choice.
  - The one-column and three-column menu layouts.
  - The statistics table rows.
  - The `TextUIManager` class, whose state is the terminal: the answers not
    yet typed and the lines printed so far.
- `store.dfy` (module `Store`): the record store.
  - The key table.
  - The fetch pass that writes one JSON file per key.
  - `get` with its three outcomes.
  - The `InfoManager` class, whose state is the cache directory (file name to
    content).
- `navigation.dfy` (module `Navigation`): the controller.
  - The menus built by `define_menus`.
  - The date labels, the first-match search and the sorted statistics.
  - Each view, and the `launches_loop` and `main_loop` loops, as functions
    over the terminal state. The `MainManager` class methods are proved
    equal to them.

Conventions of the model:

- An answer that `ask_user_choice` turns into `None` is the `Invalid` choice.
- `sys.exit('Bye!')` is the `Exit` choice, or the `Exited` end of a view.
- An exception that escapes a view (IndexError, KeyError, TypeError) is a
  `Crashed` end.
- Running out of typed answers (`input()` raising EOFError) is `EndOfInput`.
- Every loop runs on a finite list of answers and consumes one per prompt.
  That is the measure that proves `main_loop` and `launches_loop` terminate.

The model follows the code as written. Points worth noting:

- The key table order is company, launches, landpads, rockets (launches is
  not last).
- `get` of a key outside the table returns None rather than raising.
- `show_launchpads_menu` asks the store for "launchpads", which is not in the
  key table, so the collection it iterates is None. Any valid choice there
  raises TypeError. `Store.LaunchpadsIsNotStatic` and
  `Navigation.LaunchpadsCrashOnMissingCollection` state the two halves of
  this.

## Model

| member | source | states |
|---|---|---|
| Builtins.LJust | spacexexplorer/textui_manager.py:169 | The result has length max(len(s), width). It starts with s and is padded with spaces only. |
| Builtins.IntRoundTrip | spacexexplorer/textui_manager.py:171-179 | Every `str(n)` is accepted by `is_int`, and `int()` gives n back. |
| Builtins.Lookup | spacexexplorer/main_manager.py:100 | `d[key]` raises KeyError exactly when no entry has the key. Otherwise it yields a value stored under that key. |
| Builtins.PyIndex | spacexexplorer/main_manager.py:119-120 | Indexing succeeds (no IndexError) exactly for -len ≤ i < len, and what it yields is an element of the list. |
| Builtins.PyIndexSucceeds | spacexexplorer/main_manager.py:119-120 | A non-negative index i picks element i. A negative index i is the same as index len + i, so -1 picks the last element. |
| Builtins.Get | spacexexplorer/main_manager.py:57 | `dict.get` yields a value exactly when the field is present, and that value is the field's. |
| Builtins.IsInt | spacexexplorer/textui_manager.py:171-179 | An accepted answer is non-empty, starts with a digit or a sign, and every later character is a digit. |
| Builtins.ParseInt | spacexexplorer/textui_manager.py:176 | Unsigned or '+' answers parse to a non-negative number, and '-' answers to a non-positive one. |
| Builtins.IntToString | spacexexplorer/textui_manager.py:171-179 | `str(n)` is accepted by `is_int`, contains no bar, never starts with '+', and starts with '-' exactly when n is negative. |
| Builtins.LookupDistinct | spacexexplorer/main_manager.py:135 | In a dict whose keys are distinct, `d[k]` for the key of entry i gives entry i's value. |
| TextUI.Interpret | spacexexplorer/textui_manager.py:154-162 | Each of the four outcomes has an if-and-only-if condition. An integer below the list length is returned with no lower bound. An empty answer yields the default only when default > -1, with no range check. 'e' always exits, whether or not the exit hint is shown. Anything else is None. |
| TextUI.EveryIndexBelowLengthAccepted | spacexexplorer/textui_manager.py:155-157 | Typing back any integer n < len(mlist), negative ones included, yields index n. |
| TextUI.NumberedItems | spacexexplorer/textui_manager.py:133-144 | There is one item string per menu entry, in order: item i is "i: entry", with " [default]" appended only at the default index. |
| TextUI.MaxLen | spacexexplorer/textui_manager.py:168 | The result is the length of the longest string: at least every length, and attained by one of them. |
| TextUI.AddSpaces | spacexexplorer/textui_manager.py:164-169 | The output has the same length as the input. Every element has length (longest input + 1). Element i starts with input i and ends in spaces. |
| TextUI.Columns | spacexexplorer/textui_manager.py:146-151 | The three-column layout has ceil(n/3) lines, for n padded items. |
| TextUI.ColumnsLayout | spacexexplorer/textui_manager.py:146-151 | The three-column layout has ceil(n/3) lines. Full line k is items 3k, 3k+1 and 3k+2. A remainder of 1 or 2 items forms the last line. |
| TextUI.ColumnsKeepOrder | spacexexplorer/textui_manager.py:146-151 | Reading the lines one after another gives the padded items in their original order. |
| TextUI.MenuLines | spacexexplorer/textui_manager.py:132-151 | Below ten items the menu has one line per item. From ten items on it has ceil(n/3) lines. |
| TextUI.SingleColumnLayout | spacexexplorer/textui_manager.py:132-137 | Below ten items there is one line "i: item" per item. " [default]" appears only at the default index. |
| TextUI.ThreeColumnLayout | spacexexplorer/textui_manager.py:138-151 | From ten items on there are ceil(n/3) lines. Together they spell out every padded item in order. |
| TextUI.SingleColumn | spacexexplorer/textui_manager.py:132-137 | The single-column loop produces exactly the numbered item lines. |
| TextUI.CollectItems | spacexexplorer/textui_manager.py:139-144 | The `strlist +=` loop collects exactly the numbered item strings. |
| TextUI.ThreeColumns | spacexexplorer/textui_manager.py:146-151 | The zip and remainder printing produces exactly the three-column grouping. |
| TextUI.RenderMenu | spacexexplorer/textui_manager.py:132-151 | The printed menu is the one-column layout below `column_limit` and the three-column layout from it on. |
| TextUI.Row | spacexexplorer/textui_manager.py:53-57 | A row starts and ends with a bar and is longer than its number of cells. |
| TextUI.RowBars | spacexexplorer/textui_manager.py:53-57 | A row starts with a bar and holds exactly one bar more than it has cells. |
| TextUI.CellsHaveNoBars | spacexexplorer/textui_manager.py:56-57 | No year title, month title or count cell contains a bar, so the bar count of a row is its cell count + 1. |
| TextUI.MonthTitleWraps | spacexexplorer/textui_manager.py:64 | Months 1..12 get their name padded to four characters. Month 0 wraps round to "Dec ". |
| TextUI.YearRows | spacexexplorer/textui_manager.py:52-59 | The title row holds each year and the value row holds each count padded to four. Each row has one bar per pair plus the leading one. |
| TextUI.MonthRows | spacexexplorer/textui_manager.py:60-67 | Same as the year rows, with month abbreviations as titles. |
| TextUI.StatsEvents | spacexexplorer/textui_manager.py:48-67 | Six lines are printed. If a month key is outside -11..12, only the year table and the month heading are printed before the IndexError. |
| TextUI.Ask | spacexexplorer/textui_manager.py:123-162 | One prompt consumes exactly one answer. It meets end of input exactly when no answer is left. |
| TextUI.TextUIManager.constructor | spacexexplorer/textui_manager.py:10-18 | A new manager has printed nothing and holds the answers still to be typed. |
| TextUI.TextUIManager.Say | spacexexplorer/textui_manager.py:26-30 | Appends the message and nothing else. |
| TextUI.TextUIManager.Separator | spacexexplorer/textui_manager.py:32-36 | Appends the 45-character '=' line. |
| TextUI.TextUIManager.Show | spacexexplorer/textui_manager.py:69-121 | Appends one record view. |
| TextUI.TextUIManager.AskUserChoice | spacexexplorer/textui_manager.py:123-162 | Prints the message, the menu and the exit hint, then reads one answer and interprets it. Reply and new state equal `Ask`. |
| TextUI.TextUIManager.ShowLaunchStats | spacexexplorer/textui_manager.py:48-67 | Prints the statistics lines. It reports completion exactly when every month key can be titled. |
| Store.FetchAll | spacexexplorer/info_manager.py:20-28 | The providers called are those of a prefix of the key table, in order. The pass fails exactly when the last provider called failed, and a pass that does not fail calls every provider. Every provider before the last one answered. |
| Store.FetchFrom | spacexexplorer/info_manager.py:25-28 | Each remaining key adds at most one provider call, and a failure comes after at least one more call. |
| Store.FetchPassShape | spacexexplorer/info_manager.py:25-28 | From any point of the pass, the providers called extend the ones already called by a prefix of the remaining keys. It fails exactly when the last one called failed, and every earlier one answered. |
| Store.FileNameInjective | spacexexplorer/info_manager.py:26 | Different keys are written to different files. |
| Store.Read | spacexexplorer/info_manager.py:30-40 | An unknown key gives None, exactly. A known key without a file gives FileNotFoundError, exactly, with the "please run fetch_static()" message. A stored value is returned as stored. An empty file is a decode error. |
| Store.FetchFromStep | spacexexplorer/info_manager.py:25-28 | A key whose provider answers ends with its file holding the value. |
| Store.FetchCallsEveryProvider | spacexexplorer/info_manager.py:25-28 | When every provider answers, the pass calls all of them, in key-table order, and does not fail. |
| Store.FetchWritesEveryFile | spacexexplorer/info_manager.py:25-28 | When every provider answers, each key's file holds its provider's value. Files outside the key table are untouched. |
| Store.FetchStopsAtFailure | spacexexplorer/info_manager.py:26-28 | A failing provider ends the pass. Earlier keys keep their files, and its own file exists but is empty. The providers called are exactly those up to and including it. |
| Store.StaticFileNames | spacexexplorer/info_manager.py:14-18 | The key table names four distinct files: company, launches, landpads and rockets, each with ".json". |
| Store.FetchThenGet | spacexexplorer/info_manager.py:20-40 | After a successful pass, `get(k)` returns the provider's value for every known k. |
| Store.FetchFillsEmptyDirectory | spacexexplorer/info_manager.py:20-28 | A successful pass in an empty directory leaves exactly four files, as tests/test_info_fetcher.py:9 expects. |
| Store.GetBeforeFetch | spacexexplorer/info_manager.py:35-38 | A known key whose file is missing raises FileNotFoundError telling the caller to run `fetch_static()`. It never yields data. |
| Store.LaunchpadsIsNotStatic | spacexexplorer/info_manager.py:34 | "launchpads" is not in the key table, so `get("launchpads")` (main_manager.py:73) is None in every directory. |
| Store.InfoManager.constructor | spacexexplorer/info_manager.py:11-18 | The key table is company, launches, landpads, rockets, in that order. |
| Store.InfoManager.FetchStatic | spacexexplorer/info_manager.py:20-28 | The loop leaves the directory, the providers called and the failure flag exactly as the fetch pass defines them. |
| Store.InfoManager.Get | spacexexplorer/info_manager.py:30-40 | It only reads the directory, so repeated calls agree. It is None exactly for keys outside the table, and a found value is the one stored. |
| Store.InfoManager.SaveStatic | spacexexplorer/info_manager.py:42-46 | Changes nothing. |
| Navigation.Labels | spacexexplorer/main_manager.py:46 | `launch_choices[i]` (and `main_choices[i]`) is the label of menu entry i, for every i, with equal lengths. |
| Navigation.MainChoices | spacexexplorer/main_manager.py:18-24 | The main choices are exactly the five labels, in menu order. |
| Navigation.LaunchesMenu | spacexexplorer/main_manager.py:26-44 | The launches menu has 3 + rockets + launchpads entries, and its first three are All, Successful and Failed with their filters. |
| Navigation.LaunchesMenuLayout | spacexexplorer/main_manager.py:26-44 | The menu is All, Successful and Failed with their filters. Then comes one "By {name} rocket" entry per rocket summary, then one "By {name}" entry per launchpad summary, in dict order. Its length is 3 + rockets + launchpads. |
| Navigation.Names | spacexexplorer/main_manager.py:74-75 | There is one menu name per summary entry: name i is the name of summary i, in dict order. |
| Navigation.DateLabel | spacexexplorer/main_manager.py:126-127 | The label is the prefix of the date before the first 'T', or the whole date when there is none. |
| Navigation.DateMenu | spacexexplorer/main_manager.py:126-127 | There is one date label per filtered launch, in the same order: label i is the date label of launch i's `date_local`. |
| Navigation.FirstMatch | spacexexplorer/main_manager.py:98-99 | The result is the first record whose field equals the chosen name, or none when no record has it. |
| Navigation.FindFirst | spacexexplorer/main_manager.py:82-85 | The `for … break` search finds exactly the first match. |
| Navigation.RocketName | spacexexplorer/main_manager.py:135 | The launch's rocket name is found exactly when the launch has a "rocket" field that is a key of `rocket_info`. It is then the name of an entry with that key. Otherwise the lookup raises KeyError. |
| Navigation.RocketNameOfEntry | spacexexplorer/main_manager.py:135 | With distinct `rocket_info` keys, a launch naming the key of entry i gets exactly entry i's name. |
| Navigation.SuccessRate | spacexexplorer/main_manager.py:103-105 | A rate exists exactly when total launches > 0. It is then successes over total. |
| Navigation.SortedItems | spacexexplorer/main_manager.py:64-65 | It holds the same (key, count) pairs as the counter, as many as it has keys, sorted strictly ascending by key. |
| Navigation.SortedMonthsIndexable | spacexexplorer/main_manager.py:65 | The sorted month pairs can all be titled exactly when every month key lies in -11..12. |
| Navigation.Capitalize | spacexexplorer/main_manager.py:57 | The first letter is upper case, the rest lower case, and the length is unchanged. |
| Navigation.FieldText | spacexexplorer/main_manager.py:57 | This is the field's value, or "None" when the field is absent. |
| Navigation.AboutLines | spacexexplorer/main_manager.py:53-57 | There is one line per company property, in order. |
| Navigation.CapitalizeLowerWord | spacexexplorer/main_manager.py:57 | Capitalising a lower-case property name raises its first letter and keeps the rest, so "name" is labelled "Name". |
| Navigation.CompanyPropertiesLower | spacexexplorer/main_manager.py:53-54 | Each of the six property names is a non-empty lower-case word. |
| Navigation.AboutView | spacexexplorer/main_manager.py:48-58 | `about_info` consumes no answer. It prints exactly six lines plus two separators after what was there, and the first and last are the separator line. |
| Navigation.AboutViewLines | spacexexplorer/main_manager.py:53-57 | Line i between the separators is property i with its first letter raised, then ": ", then the company's value, or "None" when the field is absent. |
| Navigation.StatsView | spacexexplorer/main_manager.py:60-66 | The view ends normally exactly when every month key can be titled. Otherwise it ends with IndexError. |
| Navigation.LaunchesStep | spacexexplorer/main_manager.py:112-138 | A round that goes on has consumed at least one answer. A round that stops at end of input has none left. |
| Navigation.FilterStep | spacexexplorer/main_manager.py:119-127 | The filter half of a round that goes on has consumed an answer. One that stops at end of input has none left. |
| Navigation.DateStep | spacexexplorer/main_manager.py:126-138 | The date half of a round that goes on has consumed an answer. One that stops at end of input has none left. |
| Navigation.LaunchesRun | spacexexplorer/main_manager.py:110-138 | The loop never consumes more answers than are typed, which also bounds its rounds. It ends at end of input only once every answer is used. |
| Navigation.RocketsView | spacexexplorer/main_manager.py:87-108 | The rockets view prompts once and consumes exactly one answer, or none when none is left. It ends at end of input exactly when no answer is left. |
| Navigation.LaunchpadsView | spacexexplorer/main_manager.py:68-85 | The launchpads view prompts once and consumes exactly one answer, or none when none is left. It ends at end of input exactly when no answer is left. |
| Navigation.ActionRun | spacexexplorer/main_manager.py:154 | No dispatched view consumes more answers than are typed. One that ends at end of input has used them all. |
| Navigation.MainStep | spacexexplorer/main_manager.py:147-154 | A round of the main loop that goes on has consumed at least one answer. One that stops at end of input has none left. |
| Navigation.MainRun | spacexexplorer/main_manager.py:146-154 | `main_loop` never consumes more answers than are typed. When it ends at end of input, every typed answer has been used. |
| Navigation.InvalidLaunchChoiceReprompts | spacexexplorer/main_manager.py:115-118 | A filter answer that is None prints the invalid-input message. The loop then starts again from that state with nothing filtered. |
| Navigation.EmptyFilterEndsLaunches | spacexexplorer/main_manager.py:119-125 | A filter with no launches prints separator, "No launches found!" and separator. It then leaves the loop after that single answer, without a date prompt. This holds for any accepted index, negative ones included. |
| Navigation.InvalidMainChoiceDispatchesNothing | spacexexplorer/main_manager.py:150-153 | A main-menu answer that is None prints the invalid-input message. It dispatches no view and prompts again. |
| Navigation.ExitLeavesMainLoop | spacexexplorer/main_manager.py:148-149 | Typing 'e' at the main menu leaves at once. |
| Navigation.MainLoopNeverFinishes | spacexexplorer/main_manager.py:140-154 | `main_loop` never ends normally: only by exit, an exception or end of input. |
| Navigation.LaunchpadsCrashOnMissingCollection | spacexexplorer/main_manager.py:73-83 | The launchpads view raises TypeError exactly when its collection is None and the answer picks an entry. This happens after it has prompted. |
| Navigation.RocketsViewShowsFirstMatch | spacexexplorer/main_manager.py:98-108 | Choosing rocket name n shows the first rocket record with that name, with the success rate of its summary. This includes a negative n, which counts from the end. |
| Navigation.RocketsViewUnmatchedShowsNothing | spacexexplorer/main_manager.py:98-108 | A chosen name (a negative index included) that no rocket record has shows nothing. |
| Navigation.MainManager.constructor | spacexexplorer/main_manager.py:10-15 | The greeting is "This is a SpaceX info app", the exit flag is off and the menus are built. |
| Navigation.MainManager.DefineMenus | spacexexplorer/main_manager.py:17-46 | The append loops build exactly the main menu, the launches menu and both choice lists. |
| Navigation.MainManager.AboutInfo | spacexexplorer/main_manager.py:48-58 | Prints separator, the six company lines and separator. |
| Navigation.MainManager.SayProperties | spacexexplorer/main_manager.py:56-57 | The property loop prints exactly the six company lines, in order. |
| Navigation.MainManager.ShowLaunchStatsView | spacexexplorer/main_manager.py:60-66 | Prints the sorted statistics and ends as the statistics view does. |
| Navigation.MainManager.ShowLaunchpadsMenu | spacexexplorer/main_manager.py:68-85 | Terminal and outcome equal the launchpads view. |
| Navigation.MainManager.ShowRocketsMenu | spacexexplorer/main_manager.py:87-108 | Terminal and outcome equal the rockets view. |
| Navigation.MainManager.LaunchesRound | spacexexplorer/main_manager.py:112-138 | One pass of the loop body equals one launches round. |
| Navigation.MainManager.FilterAndChoose | spacexexplorer/main_manager.py:119-138 | Filtering, the empty-result message and the date prompt equal the filter half of a round. |
| Navigation.MainManager.ChooseLaunch | spacexexplorer/main_manager.py:126-138 | The date prompt and the launch view equal the date half of a round. |
| Navigation.MainManager.LaunchesLoop | spacexexplorer/main_manager.py:110-138 | Terminal and outcome equal the launches loop run to its end. |
| Navigation.MainManager.Dispatch | spacexexplorer/main_manager.py:154 | Runs the view the chosen main-menu entry names. |
| Navigation.MainManager.MainLoop | spacexexplorer/main_manager.py:140-154 | Says the greeting, then terminal and outcome equal the main loop run to its end. |

## Left out

- Terminal I/O: `print`, `input` and `os.system('cls||clear')` (`clear`). Output is a list of events and input is a finite list of answers.
- `ask_continue_or_exit`: no modelled code calls it.
- spacexexplorer/cli.py: process entry point, temporary directory and wiring.
- The spacexpy network client: every provider is an abstract function from key to a value or a connection failure. Other provider exceptions are folded into that failure.
- JSON: a stored value is opaque. A failure of `json.dump` after the provider has answered is not modelled. Records are maps from field name to text, so numbers, booleans and nested objects are not distinguished.
- File paths: the directory is joined to the file name with "/", with no pathlib normalisation.
- `filter_launches`, the `rocket_info` and `launchpad_info` summaries and `launch_stats` are used by the controller but not defined in info_manager.py. They are inputs of the controller with no filtering or counting semantics. The controller's company, rockets and launchpads collections are inputs too; only the launchpads one can be None, as `get` makes it.
- `show_single_launchpad_info`, `show_single_rocket_info` and `show_single_launch_info`: each is one record-view event. Their field-by-field text is not modelled.
- Navigation.SuccessRate: the percentage is kept as the pair (successes, total). The floating-point value and its `:0.1f` formatting are not modelled. Neither is the fact that a rate of 0.0 is falsy and not printed.
- Builtins.IntRoundTrip: `int()` is modelled as an optional sign followed by ASCII digits. Python also accepts surrounding whitespace, `_` separators and non-ASCII digits.
- Navigation.Capitalize: ASCII letters only, which covers the six fixed property names it is applied to. The six labels are not spelt out as literals.
- Store.InfoManager.SaveStatic: its body is `pass`, so there is nothing else to model.
