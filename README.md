# Expense bot — a Dafny model

The system is `bot.py`, a Telegram chat bot that records personal and family expenses in a Google
Sheets spreadsheet. This project models that bot's core with the spreadsheet held in memory. The
book is a map from worksheet title to a grid of rows, and row 0 of each grid is the header row.

- `Wrappers` provides `Option`.
- `Text` models the string work the handlers do:
  - the `replace('.', '').isdigit()` amount filter and `float()` on the text it accepts;
  - `strip`;
  - the first word of a `/start` command;
  - `int()`;
  - the `%Y-%m-%d %H:%M:%S` timestamps and their `%Y-%m` prefix.
- `Markdown` models `escape_markdown`.
- `Keyboards` models the category list, the category keyboard built two buttons per row, and the fixed
  inline keyboards.
- `Sheets` models one worksheet. Its functions stand for the worksheet calls:
  - `get_all_records`: `dict(zip(header, row))` over padded rows, where the last header cell of a name wins;
  - `row_values(1)[0]`;
  - `insert_cols` of a new `ID` column;
  - `find`: the first row, header included, with a cell showing the text;
  - `delete_rows`;
  - `update_cell`.
- `Ledger` models the book as a whole:
  - `get_user_sheet` creates a missing personal worksheet, or migrates an existing one;
  - `get_family_sheet` migrates but never creates;
  - `setup_families_list` creates the registry if it is missing;
  - the `family-` titles and the generated family ids.
- `Families` models the `families_list` registry: membership tests, the family of a user, and the
  checks of `create_family` and `handle_family_id`.
- `Dialog` models the conversation state and the dispatcher. The state is the `user_data` entry and
  the FSM context of the edit flow. The dispatcher hands a text message, or a callback query, to the
  first handler whose filter accepts it, in the order the handlers are registered.
- `Stats` models `handle_stats_type`: the month filter, the summing loop, and the three statistics
  scopes.
- `Recent` models `get_last_expenses`: the personal records and then the family records, the first
  record of each ID, the stable sort newest first, and the cut to the limit.
- `Deletion` models `handle_delete_expense`: the personal sheet is probed first, then each family
  sheet in registry order.
- `Bot` holds the class `ExpenseBot`.
  - Its fields are the book, `user_data` and the FSM contexts.
  - It has one method per handler, one per sheet lookup (`get_user_sheet`, `get_family_sheet`,
    `setup_families_list`), and `Dispatch`, which routes a message through `OnMessage` and a
    button press through `OnCallback`.
  - Its invariant is that the registry keeps its header, holds text cells only, and lists each user
    at most once.

The outside world enters as parameters (`Bot.Env`): the clock, the fresh `uuid4` text, the six random
characters of a new family id, and whether the store accepts an `append_row`.

Where a handler raises, the model has an outcome:
- an `except` branch becomes its error answer (`SaveFailed`, `DeleteFailed`, `UpdateFailed`, `StatsFailed`);
- an exception nothing catches becomes `Crashed`, which answers nothing and keeps every change made
  before the raise.

## Model

| member | source | states |
|---|---|---|
| `Markdown.EscapeMarkdown` | bot.py:176-179 | the output is the input lengthened by one character per special character |
| `Markdown.UnescapeEscape` | bot.py:176-179 | removing the inserted backslashes gives back the input |
| `Markdown.EscapeIsWellEscaped` | bot.py:176-179 | every special character of the output is preceded by its own inserted backslash |
| `Markdown.EscapePlain` | bot.py:176-179 | a text without special characters is returned unchanged |
| `Markdown.EscapeAppend` | bot.py:176-179 | escaping works character by character, so it distributes over concatenation |
| `Markdown.EscapeInjective` | bot.py:176-179 | two different texts never escape to the same output |
| `Keyboards.CategoriesKeyboard` | bot.py:100-115 | the loop over `range(0, len, 2)` builds exactly the two-per-row layout of the labels |
| `Keyboards.LayoutShape` | bot.py:100-115 | the layout has ceil(n/2) rows; every row but an odd last one has two buttons; button j of row k is label 2k+j |
| `Keyboards.LayoutKeepsOrder` | bot.py:100-115 | reading the rows in order gives every label once, in list order |
| `Keyboards.CategoriesKeyboardShape` | bot.py:51-69 | the 17 categories give 9 rows, the last holding only "💼 Прочее" |
| `Keyboards.Echo` | bot.py:104-111 | a category button sends its own label as callback data |
| `Keyboards.DeleteButton` | bot.py:156-164 | the delete button's callback data is `delete_` followed by the expense id |
| `Keyboards.CategoriesAreSymbols` | bot.py:51-69 | every category label starts with a pictograph, above U+2000 |
| `Text.WithoutEmpty` | bot.py:314 | `text.replace('.', '')` is empty exactly when the text holds nothing but dots |
| `Text.WithoutDigits` | bot.py:314 | `text.replace('.', '')` is all digits exactly when every character other than a dot is a digit |
| `Text.AmountParsesIffOneDot` | bot.py:314-317 | a text that passes the amount filter is accepted by `float()` exactly when it has at most one dot |
| `Text.Strip` | bot.py:358 | the comment is the text minus leading and trailing whitespace, and does not start or end with whitespace |
| `Text.ParseInt` | bot.py:691 | `int()` succeeds exactly on digit text, or on a `+` or `-` followed by digit text; the value is the digits' decimal value, negated after a `-` |
| `Text.DashedIdIsNotAnInt` | bot.py:364-691 | the `uuid4` text stored as an expense id, with its `-` in ninth place, never reads as a row number |
| `Text.MonthOf` | bot.py:436 | the current month is the 7-character `YYYY-MM` prefix of the timestamp |
| `Sheets.KeyColumn` | bot.py:446-447 | the column a record key reads is the last header cell with that name, or none |
| `Sheets.HeaderFirst` | bot.py:185 | `row_values(1)[0]` exists exactly when row 1 has a non-blank cell, and is its first cell |
| `Sheets.MigratedHeaderStartsWithId` | bot.py:185-186 | after the inserted column, the header starts with `ID` |
| `Sheets.MigrationKeepsFields` | bot.py:185-186 | the inserted `ID` column leaves every other field of every record unchanged |
| `Sheets.FindRow` | bot.py:631 | `find` returns the first row, header included, that shows the text; none when no row does |
| `Sheets.DeleteRow` | bot.py:633 | `delete_rows` removes exactly that row and keeps the others in order |
| `Sheets.DeleteRowShowsNoMore` | bot.py:631-633 | when only the deleted row showed the text, `find` finds nothing afterwards |
| `Sheets.UpdateCell` | bot.py:699 | `update_cell` sets exactly that cell, growing the grid as needed, and changes no other cell |
| `Ledger.FamilyId` | bot.py:202-205 | a generated family id is `family-` and six characters, 13 in all |
| `Ledger.FamilyTitle` | bot.py:232 | every family worksheet title is `family-` followed by the family id, never the registry's title |
| `Ledger.TitlesDistinct` | bot.py:181-236 | personal, family and registry titles never collide |
| `Ledger.GeneratedTitle` | bot.py:205-232 | a generated family's worksheet title carries the prefix twice, `family-family-`, and is 20 characters long |
| `Ledger.OpenUserSheet` | bot.py:181-191 | `get_user_sheet` leaves the user's sheet present with `ID` first, or raises on an empty row 1; it changes no other worksheet and no row count |
| `Ledger.OpenFamilySheet` | bot.py:193-200 | `get_family_sheet` reports a missing title as absent and never adds a worksheet |
| `Ledger.OpenFamilyKeepsView` | bot.py:193-200 | after one `get_family_sheet`, every later `get_family_sheet` of any title sees the same access and, when readable, the same grid |
| `Ledger.EnsureFamiliesList` | bot.py:91-98 | `setup_families_list` adds the registry only when it is missing and changes nothing else |
| `Ledger.NewUserSheet` | bot.py:189-191 | a missing personal sheet is created holding exactly the 7-column header |
| `Ledger.OpenUserSheetIdempotent` | bot.py:181-191 | a second `get_user_sheet` after a successful one changes nothing |
| `Ledger.FamilySheetNeverCreated` | bot.py:193-200 | `get_family_sheet` keeps the set of titles and returns none for a missing one |
| `Ledger.FamilySheetMigratedOnFirstRead` | bot.py:196-197 | a fresh family sheet has no `ID` column; its first lookup adds one |
| `Ledger.OpenKeepsRecords` | bot.py:185-186 | a lookup keeps the row count and every non-ID field of every record |
| `Families.FamilyOf` | bot.py:381-386 | the family is the id of the first registry row naming the user; the user has a family exactly when that row's id is a non-empty text, and a user no row names has none |
| `Families.Distinct` | bot.py:565 | the set of family ids holds each id once and exactly the ids listed |
| `Families.CheckCreate` | bot.py:221-225 | `create_family` may go ahead exactly when no registry row names the user |
| `Families.CheckJoin` | bot.py:265-274 | `handle_family_id` may go ahead exactly when the family is listed and the user is not |
| `Families.AppendKeepsOneRowPerUser` | bot.py:236 | appending a row for an unlisted user keeps each user in at most one row and lists the user |
| `Families.FamilyIdsAtMostOne` | bot.py:639-642 | in a registry with one row per user, the delete probe visits at most one family |
| `Families.EmptyRegistryOk` | bot.py:95-96 | a newly created registry is well formed |
| `Dialog.KindOf` | bot.py:331-334 | the type buttons give the personal or family kind, and nothing else does |
| `Dialog.Route` | bot.py:207-709 | every text message is taken by some message handler, since `handle_unknown` accepts whatever the others refuse |
| `Dialog.StatsButtonTakenAsComment` | bot.py:355-423 | while a comment is awaited, "Посмотреть статистику" is taken as the comment |
| `Dialog.DigitCommentTakenAsAmount` | bot.py:314-356 | while a comment is awaited, a comment of digits is taken as a new amount |
| `Dialog.EditHandlersNeedEditState` | bot.py:662-685 | without an FSM state, none of the three edit handlers can be reached |
| `Dialog.NotACategory` | bot.py:294 | callback data that starts with a plain character is not a category |
| `Dialog.CategoryButtonsReachHandleCategory` | bot.py:294-295 | every category button reaches `handle_category` |
| `Dialog.TypeButtonsReachHandleExpenseType` | bot.py:331-332 | the type buttons reach `handle_expense_type` |
| `Dialog.SkipButtonReachesHandleSkipComment` | bot.py:348-349 | the skip button reaches `handle_skip_comment` |
| `Dialog.StatsButtonsReachHandleStatsType` | bot.py:430-431 | the three statistics buttons reach `handle_stats_type` |
| `Dialog.DeleteButtonReachesDelete` | bot.py:621-622 | a delete button reaches `handle_delete_expense`, whatever the id it carries |
| `Dialog.NoStartCommand` | bot.py:207 | a text starting with neither `/` nor whitespace is not the `/start` command |
| `Dialog.NoAmount` | bot.py:314 | a text starting with neither a dot nor a digit fails the amount filter |
| `Stats.SelectedUpTo` | bot.py:447 | the month's rows are exactly those dated in the month (and typed `Личная` for personal), in order; a date that is not text makes the filter raise |
| `Stats.AddTo` | bot.py:452 | `stats[category] += amount` adds to that category only, keeps key order, and raises the sum by the amount |
| `Stats.AddToDistinct` | bot.py:452 | adding to a dict with distinct keys never repeats a key |
| `Stats.TallyRows` | bot.py:449-453 | the summing loop computes the tally of the selected rows, or raises on a bad amount |
| `Stats.TallyConsistent` | bot.py:449-453 | after the loop, the total equals the sum of the per-category sums and no category appears twice |
| `Stats.TallyPerCategory` | bot.py:449-453 | each category's sum is the sum of the amounts of its selected rows |
| `Stats.TallyKeepsKeys` | bot.py:449-453 | categories already in the stats stay, in their order |
| `Stats.EmptyIffNoRows` | bot.py:449-453 | the stats are empty exactly when no row was selected |
| `Stats.FamilyStatsNeedFamily` | bot.py:486-489 | `family_stats` for a user in no family answers "not in a family" and reads no family sheet |
| `Stats.AllStatsWithoutFamily` | bot.py:491-526 | `all_stats` for a user in no family shows exactly the personal statistics |
| `Stats.SummaryConsistent` | bot.py:529-533 | every summary has a category, no category twice, and a total equal to the sum of its lines |
| `Stats.PersonalSummaryPerCategory` | bot.py:443-453 | personal statistics sum, per category, exactly the amounts of the month's personal rows |
| `Stats.FamilySummaryPerCategory` | bot.py:455-481 | a family summary comes from the family of the first registry row naming the user, whose sheet is readable, and sums per category exactly the amounts of that sheet's rows of the month |
| `Stats.AllSummaryPerCategory` | bot.py:491-526 | an overall summary sums per category the month's personal rows plus, when the user has a family with a readable sheet, that sheet's rows of the month |
| `Stats.StatsKeepRows` | bot.py:430-545 | computing statistics adds and removes no row of any worksheet |
| `Recent.Dedup` | bot.py:554-576 | the `seen_ids` scan keeps only records it saw, keeps every ID, and keeps no ID twice |
| `Recent.DedupKeepsFirst` | bot.py:555-556 | the record kept for an ID is the first one read |
| `Recent.Insert` | bot.py:581-584 | inserting into a newest-first list keeps it sorted and is a permutation |
| `Recent.InsertAfterTies` | bot.py:581-584 | an inserted entry goes after every entry with the same date, as if appended |
| `Recent.SortDesc` | bot.py:581-584 | the sort orders newest first and is a permutation of its input |
| `Recent.SortDescStable` | bot.py:581-584 | `sort(key=…, reverse=True)` is stable: entries with the same date keep their input order |
| `Recent.Take` | bot.py:585 | the cut keeps the first `limit` entries, or all of them when there are fewer |
| `Recent.ReadSheet` | bot.py:554-576 | one sheet's loop extends the deduplicated records and `seen_ids` by that sheet's records |
| `Recent.MergeRecent` | bot.py:547-585 | the loops compute the deduplicated, sorted and cut list, or raise on a date that does not parse |
| `Recent.LatestOrdered` | bot.py:581-585 | at most `limit` entries, in non-increasing date order |
| `Recent.LatestDistinct` | bot.py:585 | no two entries share an ID |
| `Recent.LatestFromSources` | bot.py:552-576 | every entry is a data row of the personal sheet or of a family sheet, with that sheet's type |
| `Recent.NotTakenNoNewer` | bot.py:581-585 | an entry the sorted cut leaves out is no newer than any entry it keeps |
| `Recent.LatestAreNewest` | bot.py:581-585 | every record left out is no newer than any record shown |
| `Recent.FirstSheetWins` | bot.py:552-576 | a kept record whose ID occurs in the personal sheet comes from the personal sheet |
| `Recent.PersonalCopyKept` | bot.py:547-585 | when a personal and a family record share an ID, the expense is shown as personal |
| `Recent.RecentSources` | bot.py:551-571 | the personal sheet, as `get_user_sheet` leaves it, is read first, then only family sheets |
| `Recent.PresentTitles` | bot.py:566-569 | the family sheets read are titles present in the book, each one of the user's families |
| `Recent.OpenFamiliesSome` | bot.py:566-571 | the family loop completes exactly when no family sheet has an empty first row |
| `Recent.OpenFamiliesGrids` | bot.py:566-571 | the family loop reads one grid per existing family sheet, in order, each as `get_family_sheet` leaves it |
| `Recent.RecentSourcesSome` | bot.py:551-571 | the sheets are read exactly when the user's sheet is readable and none of the user's family sheets has an empty first row |
| `Recent.RecentSourcesView` | bot.py:551-571 | the grids read are the user's sheet, then each existing family sheet of the user's distinct families, in registry order |
| `Deletion.SecondField` | bot.py:624 | `split("_")[1]` is the text between the first and the second underscore, and fails without an underscore |
| `Deletion.DeleteDataCarriesId` | bot.py:607-624 | an id with no underscore comes back whole from its delete button |
| `Deletion.ProbeFamilies` | bot.py:644-655 | the family loop keeps the titles and the registry, and a delete shortens exactly one sheet by one row; failures keep every row |
| `Deletion.FirstHitDeletes` | bot.py:644-655 | when every earlier family sheet is missing or does not show the id, and sheet k shows it, the first matching row of sheet k is deleted |
| `Deletion.AllPassedNotFound` | bot.py:644-657 | when every family sheet is missing or does not show the id, the answer is "not found" |
| `Deletion.FirstBrokenFails` | bot.py:644-659 | when every earlier family sheet is missing or does not show the id, and sheet k has an empty first row, the delete fails |
| `Deletion.ProbeFamiliesView` | bot.py:644-659 | a family delete happens at the first sheet that shows the id; "not found" holds exactly when every sheet is missing or does not show it; a failure comes from the first unreadable sheet |
| `Deletion.FamilyHalf` | bot.py:630-659 | when the personal sheet does not show the id, the family probe over the user's families decides the outcome, with first-hit, not-found and failure as above |
| `Deletion.PersonalFirst` | bot.py:630-635 | when the personal sheet shows the id, its first matching row is deleted and no family sheet is read |
| `Deletion.NothingDeletedKeepsRows` | bot.py:657-659 | "not found" and errors leave every worksheet with all its rows |
| `Deletion.AtMostOneRow` | bot.py:630-655 | a successful delete removes one row of one worksheet and no other row |
| `Deletion.RepeatSkipsPersonal` | bot.py:630-635 | repeating a personal delete of an id held in one row deletes nothing more from the personal sheet |
| `Bot.PersonalRow` | bot.py:371-380 | the personal row is `[id, now, category, amount, "", "Личная", comment]` under the 7-column header |
| `Bot.FamilyRow` | bot.py:393-403 | the family row has eight cells, the user id in seventh place and the comment last |
| `Bot.EditColumn` | bot.py:692-696 | only `category`, `amount` and `comment` have a column, within the header's width |
| `Bot.EditColumnsMisaligned` | bot.py:692-696 | against the personal header, edits of category, amount and comment land in Дата, Категория and Тип |
| `Bot.KeptRegistryValid` | bot.py:91-98 | a lookup that keeps the registry, or adds a fresh one, keeps it well formed |
| `Bot.CommentSavedIff` | bot.py:348-421 | a comment, typed or skipped, saves the entry exactly when it has a type and its sheet takes the row (`SaveSucceeds`); a save echoes the comment and drops the entry, anything else keeps the entry with the comment |
| `Bot.CommentStored` | bot.py:348-403 | a saved comment is the last cell of the row appended to the personal sheet, or of the family sheet after the author's id, and the earlier rows are kept |
| `Bot.CommentedOnlySender` | bot.py:348-421 | committing a comment changes no other user's entry or FSM context |
| `Bot.MessageOnlySender` | bot.py:207-709 | every message handler changes only the sender's entry and FSM context |
| `Bot.MessageFrame` | bot.py:207-709 | only `handle_amount` and `handle_comment` change `user_data`; only `handle_new_value` changes the FSM storage, and it clears the sender's context |
| `Bot.CallbackOnlySender` | bot.py:294-682 | every callback handler changes only the sender's entry and FSM context |
| `Bot.CallbackFrame` | bot.py:294-682 | the category, type, edit and field buttons leave the spreadsheet alone; only the edit buttons change the FSM storage; an unhandled press changes nothing |
| `Bot.ExpenseBot.constructor` | bot.py:48 | the bot starts with empty `user_data` and no FSM context |
| `Bot.ExpenseBot.OpenUser` | bot.py:181-191 | the book becomes the one `get_user_sheet` leaves, and the registry stays well formed |
| `Bot.ExpenseBot.OpenRegistry` | bot.py:91-98 | the book becomes the one `setup_families_list` leaves, and the registry stays well formed |
| `Bot.ExpenseBot.OpenFamily` | bot.py:193-200 | the book becomes the one `get_family_sheet` leaves, and the registry stays well formed |
| `Bot.ExpenseBot.SendWelcome` | bot.py:207-214 | `/start` makes sure the user's sheet exists |
| `Bot.ExpenseBot.CreateFamily` | bot.py:216-243 | a listed user is refused; otherwise the family sheet is added with its header and the creator row appended; a failure leaves the registry as it was |
| `Bot.ExpenseBot.JoinFamily` | bot.py:245-257 | the answer is "already in a family" exactly when some family sheet lists the user; nothing changes |
| `Bot.ExpenseBot.HandleFamilyId` | bot.py:259-285 | an unknown family, or a listed user, leaves the registry unchanged; otherwise the member row is appended |
| `Bot.ExpenseBot.StartAddExpense` | bot.py:287-292 | the answer carries the two-per-row category keyboard |
| `Bot.ExpenseBot.HandleCategory` | bot.py:294-312 | the user's entry is replaced by the category alone |
| `Bot.ExpenseBot.HandleAmount` | bot.py:314-329 | the amount is set when `float()` accepts the text and the user has an entry; otherwise the handler raises and nothing changes |
| `Bot.ExpenseBot.HandleExpenseType` | bot.py:331-346 | the entry keeps category and amount, gains the type and awaits a comment |
| `Bot.ExpenseBot.ProcessExpense` | bot.py:361-421 | the new state is `Committed`; see note 1 below the table |
| `Bot.ExpenseBot.CommitPersonal` | bot.py:367-378 | the personal branch saves exactly when the sheet is readable and the append goes through, and then appends the 7-cell row |
| `Bot.ExpenseBot.CommitFamily` | bot.py:380-406 | the family branch appends the 8-cell row to the first listed family's sheet; no family or no sheet saves nothing and still succeeds |
| `Bot.ExpenseBot.HandleSkipComment` | bot.py:348-353 | without an entry it raises and nothing changes; otherwise the comment is set to "" and the entry is committed as `ProcessExpense` commits it (`Commented`) |
| `Bot.ExpenseBot.HandleComment` | bot.py:355-359 | without an entry it raises and nothing changes; otherwise the comment is set to the stripped text and the entry is committed as `ProcessExpense` commits it (`Commented`) |
| `Bot.ExpenseBot.TallySheet` | bot.py:446-453 | one sheet's statistics are the month filter followed by the summing loop |
| `Bot.ExpenseBot.ReadPersonalTally` | bot.py:443-453 | the personal part of the statistics |
| `Bot.ExpenseBot.ReadFamilyTally` | bot.py:455-481 | the family part: the first registry row naming the user, then that family's sheet |
| `Bot.ExpenseBot.HandleStatsType` | bot.py:430-545 | the book and the answer are those of the chosen scope for the current month |
| `Bot.ExpenseBot.ShowLastExpenses` | bot.py:588-619 | the answer shows the five newest expenses, or the empty-list message |
| `Bot.ExpenseBot.ReadSources` | bot.py:552-571 | the sheets read are the user's own and then the listed families' sheets, as `get_last_expenses` opens them |
| `Bot.ExpenseBot.ProbeFamilySheets` | bot.py:644-655 | the loop computes `ProbeFamilies`: the first-hit, not-found and failure cases of `Deletion.ProbeFamiliesView` |
| `Bot.ExpenseBot.HandleDeleteExpense` | bot.py:621-659 | the method computes the delete probe's new book and outcome, keeping the registry well formed |
| `Bot.ExpenseBot.HandleEditExpense` | bot.py:662-673 | the id is stored and the field choice (re)entered |
| `Bot.ExpenseBot.HandleSelectField` | bot.py:675-682 | the payload is stored as the field and a new value awaited |
| `Bot.ExpenseBot.HandleNewValue` | bot.py:684-705 | see note 2 below the table |
| `Bot.ExpenseBot.Dispatch` | bot.py:207-709 | see note 3 below the table |
| `Bot.ExpenseBot.OnMessage` | bot.py:207-709 | a text message goes to the first message handler whose filter accepts it, and the new state and answer are that handler's (`MessageDone`) |
| `Bot.ExpenseBot.OnCallback` | bot.py:294-682 | a button press goes to the first callback handler whose filter accepts it, and the new state and answer are that handler's (`CallbackDone`); with none, nothing changes |

Notes on the longer rows:

1. `Bot.ExpenseBot.ProcessExpense`:
   - A missing type raises and keeps the entry.
   - A personal entry appends its 7-cell row.
   - A family entry appends its 8-cell row only when the user has a family and its sheet exists. If
     not, it still reports success and drops the entry.
   - A failed append, or an unreadable sheet, keeps the entry.
2. `Bot.ExpenseBot.HandleNewValue`:
   - The cell is written only when all of these hold: the stored id reads as a row number ≥ 1, the
     field is known, and the sheet can be read.
   - The FSM context is cleared either way.
3. `Bot.ExpenseBot.Dispatch`:
   - The first matching handler is selected, and the new state and answer are the ones that handler's
     effect predicate gives (`MessageDone`, `CallbackDone`): for each handler the same contract as its
     method.
   - Only the sender's entry and FSM context can change.
   - The registry stays well formed.
   - With no FSM context open, none is ever opened, so the edit flow is unreachable.

## Left out

- The Telegram transport is not modelled. This covers message and callback objects, `reply`,
  `answer` and `edit_text`, reply-keyboard rendering, parse modes and the text of the answers. Each
  handler returns a `Reply` tag instead.
- The reply keyboards that carry no logic are not modelled: the main menu and the amount keyboard.
  The inline keyboards are constants.
- The expense cards of `show_last_expenses` are not modelled (emoji, labels, the `get`
  defaults). The answer carries the list itself.
- gspread and the Sheets API are not modelled; the book stands in for them.
  - `numericise` in `get_all_records`, which turns numeric-looking text into numbers, is not
    modelled. Cells hold the text or number that was written.
    - The consequence: a Telegram user id is digit text, so the real store returns it as an `int`.
      bot.py:223, bot.py:253 and bot.py:272 compare `str(user_id)` with that raw value, so in the real
      store those "already in a family" refusals never fire and a user can be listed twice.
      bot.py:384, 466, 511, 565 and 641 wrap both sides in `str()` and are not affected.
    - `Families.CheckCreate`, `Families.CheckJoin`, the refusal in `Bot.ExpenseBot.JoinFamily` and the
      one-row-per-user part of `Bot.ExpenseBot.Valid` hold only because the model's store returns
      the text that was written.
  - `Num` cells never match `find`.
  - The arguments of `insert_cols` are taken at their evident intent: a new first column headed `ID`,
    blank below.
  - `update_cell` stores the new value as text, without the sheet's input interpretation.
  - `add_worksheet`'s sizes (`rows=100`, `cols=…`) are not modelled. A new worksheet holds just the
    rows appended to it.
  - The header check of `get_all_records` for duplicate names is not modelled.
- The store's failures are modelled only as these outcomes:
  - a refused `append_row` (`Env.appendOk`) of a data row or a registry row. The header appends
    always succeed: `get_user_sheet` (bot.py:190), `setup_families_list` (bot.py:96) and the family
    sheet's header (bot.py:233). In the bot, a refused header append leaves a sheet without a header,
    and every later `row_values(1)[0]` on it raises (bot.py:185). The model reaches that state only
    from a book that already holds such a sheet, never by its own steps;
  - an existing title at `add_worksheet`;
  - an empty row 1 at `row_values(1)[0]`.

  Network errors, quotas and other API errors are left out. In `create_family`, the failure is
  placed at the registry append.
- The registry is assumed to have its `family_id` and `user_id` columns, as the bot creates it. The
  `KeyError` a hand-edited registry without them would raise is not modelled. A numeric `family_id`
  counts as no family.
- Python `set` iteration order is not modelled. `get_last_expenses` visits the user's families in
  registry order with repeats dropped.
- The Unicode behaviour of `str.isdigit` and `str.strip` is limited to ASCII digits and ASCII
  whitespace. `float()` is modelled on digit-and-dot text only, without exponents, signs,
  `inf`/`nan` or underscores. `int()` accepts a sign and ASCII digits only.
- `strptime` is modelled as the shape check `YYYY-MM-DD HH:MM:SS` and the 14-digit number it reads.
  Calendar validation (month 13, February 30) is not modelled. Unpadded fields are not modelled
  either: `%m`, `%d`, `%H`, `%M` and `%S` also accept one digit, so `strptime` reads
  "2026-10-8 12:00:00", which the model rejects.
- The `/start@botname` form of the command filter and the command's prefix options are not modelled.
- Telegram's 64-byte limit on callback data is not modelled.
- Amounts are `real`. IEEE rounding and the `:.2f` formatting are not modelled.
- The reminders are not modelled: `send_daily_reminder`, `send_weekly_reminder`, `scheduler` and
  `main`. They are asyncio timing and I/O. Their comment says "Sunday", but `7 - weekday()` lands on
  Monday.
- Logging and `print` are not modelled.
- `Deletion.RepeatSkipsPersonal`: this is weaker than "a repeated delete finds nothing". It covers
  the personal sheet only, and assumes the id is shown in exactly one data row. An id also shown in
  other cells, or a second copy in a family sheet, can still be found by a second press.
