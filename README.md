# Moneybh dashboard core, modelled in Dafny

This project models the logic behind the Moneybh web app. That app is a
personal-finance front end for Indian markets. The model covers:

- **Holdings and watchlist.** The row types in `schema.ts` and the percent
  formatter. The holdings table's value and P&L columns, its search filter,
  page guard and empty-state row. The watchlist columns: percent change
  against a chosen basis price, display fallbacks and the market-cap
  comparator. The watchlist table's drag-and-drop reorder, note saving and
  facet options. The instrument dialog's OHLC fallbacks, its five-level
  order book and the note save/close protocol.
- **Dashboard.** Holdings totals and the sector allocation, which a loop
  fills into a dictionary and then sorts by descending value. The
  watchlist tab's list filter, market-breadth summary and sector counts.
  The broker-import mode machine (idle, syncing, ready).
- **Watchlist page.** Its list selector and summary card.
- **Bhai Points store.** A balance kept in a cookie, with `spend`, `earn`
  and `reset`.
- **Polls page.** Free users pay for the polls they create.
- **Trade Talkies rooms.** Badges, sender lookup and permissions. The
  create-room wizard and its tag chips, new channels, joining, previews,
  posting a message and the discover filter.
- **Application dock.** Swipe-up detection, press-and-slide activation and
  its grown height.
- **Chat input bar.** Its submit rule and its placement.

Pure code is modelled as functions and lemmas. Component state that
handlers update is modelled as a class whose methods state the whole new
state:

- `HoldingsTableState`, `WatchlistTableState`, `DetailsDialog`,
  `WatchlistPageState`;
- `Importer`, `Store`, `PollsPage`, `TradeTalkiesState`;
- `Swipe`, `Item`, `InputBox`.

In `TradeTalkiesState` the create-room wizard's eight `useState` hooks
(`createRoomOpen` to `privacy`, modelled as `isPublic`) are the fields of
one record, the class field `wizard` of type `Wizard`. A setter call is an
update of that record's field.

These inputs from the outside world become parameters:

- `Date.now()` ids become `stamp` (`roomStamp` and `chanStamp` for the two
  reads in `createRoom`), today's date becomes `today`, and an
  ISO timestamp becomes `timestamp`;
- `isMobile` and whether an optional callback was given (`hasHandler`,
  `hasClick`);
- the row model the table library renders (`rows`);
- the route's search parameters and what the cookie or `localStorage`
  holds.

Prices are `real` and quantities are `int`.

Two helper modules hold the string and sequence operations the code relies
on:

- `Text`: ECMAScript `trim` over its white-space set, ASCII lower-casing,
  `includes`, and `split`/`join`;
- `Seqs`: filter, subsequence, count, sum, first index, distinct,
  `splice`-style remove/insert/move.

## Model

| member | source | states |
|---|---|---|
| Schema.FormatPercent | src/features/dashboard/data/schema.ts:38 | `+` leads exactly when n > 0. A negative n gets its own leading `-`. The text ends in a dot, two digits and `%`, with at least one digit and only digits between sign and dot. |
| Schema.FormatPercentZero | src/features/dashboard/data/schema.ts:38 | `formatPercent(0)` is `"0.00%"`, with no sign. |
| Schema.ShownIsNearest | src/features/dashboard/data/schema.ts:38 | The hundredths `toFixed(2)` shows lie within half a hundredth of n. |
| Schema.FormatParse | src/features/dashboard/data/schema.ts:38 | Reading the text back as a signed decimal percent gives exactly the shown hundredths, so the output is a faithful rendering of n. |
| HoldingsColumns.PnlTone | src/features/dashboard/components/holdings-columns.tsx:82-85 | The P&L cell has the gain colour exactly when (ltp − avgPrice)·qty ≥ 0. |
| HoldingsColumns.ToneOfLongPosition | src/features/dashboard/components/holdings-columns.tsx:82-85 | For qty > 0 the colour is gain exactly when ltp ≥ avgPrice. |
| HoldingsColumns.ValueCompare | src/features/dashboard/components/holdings-columns.tsx:69-73 | The comparator's sign is the order of the two market values qty·ltp, and it is zero exactly when they are equal. |
| HoldingsColumns.PnlCompare | src/features/dashboard/components/holdings-columns.tsx:87-91 | The comparator's sign is the order of the two recomputed P&L values. |
| HoldingsColumns.ComparatorsAreOrders | src/features/dashboard/components/holdings-columns.tsx:69-91 | Both comparators are antisymmetric and transitive. |
| HoldingsColumns.SeedPnlOrder | src/features/dashboard/components/holdings-columns.tsx:87-91 | With the seed holdings, TCS's P&L is 6875 and INFY's is 3000. TCS ranks above INFY. WIPRO shows the loss colour. |
| HoldingsTable.FilterRows | src/features/dashboard/components/holdings-table.tsx:45-50 | The kept rows are an order-preserving subsequence. A row is kept exactly when it matches, as many times as it occurs. An empty or undefined query keeps all rows. |
| HoldingsTable.HoldingsTableState.constructor | src/features/dashboard/components/holdings-table.tsx:27 | The table holds the seed holdings and starts on page 0. The data field is a `const`, so no handler can replace it. |
| HoldingsTable.HoldingsTableState.GuardPageIndex | src/features/dashboard/components/holdings-table.tsx:53-59 | With no pages the index becomes 0. Otherwise it is kept. |
| HoldingsTable.HoldingsTableState.Visible | src/features/dashboard/components/holdings-table.tsx:96-119 | The body is the single 7-column empty-state row exactly when no holding matches. Every data row shown matches the query. |
| TableView.GlobalMatch | src/features/dashboard/components/holdings-table.tsx:45-50 | A row is kept exactly when the lower-cased query occurs in the lower-cased symbol or name. |
| TableView.EmptySearchKeepsAll | src/features/dashboard/components/holdings-table.tsx:48-49 | An undefined or empty query keeps every row. |
| TableView.MatchIgnoresCase | src/features/dashboard/components/holdings-table.tsx:45-50 | Lower-casing the query, or the symbol and name, does not change the verdict. |
| TableView.FoundBySymbol | src/features/dashboard/components/holdings-table.tsx:45-50 | Searching for a row's own symbol finds it. |
| TableView.Body | src/features/dashboard/components/holdings-table.tsx:96-119 | No rows gives exactly one empty row spanning every column. Otherwise there is one data row per record, in order. |
| WatchlistColumns.PctFor | src/features/dashboard/components/watchlist-columns.tsx:10-14 | A zero base gives 0. Otherwise pct·base = (ltp − base)·100. The base is prevClose or open by basis, falling back to ltp. |
| WatchlistColumns.PctSign | src/features/dashboard/components/watchlist-columns.tsx:13 | For a positive base the change is positive, negative or zero exactly as ltp is above, below or at the base. |
| WatchlistColumns.MissingBasisIsFlat | src/features/dashboard/components/watchlist-columns.tsx:11-13 | When the basis field is absent, the change is exactly 0. |
| WatchlistColumns.ChangeTitle | src/features/dashboard/components/watchlist-columns.tsx:70 | The header is `Change % (Prev Close)` exactly for the previous-close basis and `Change % (Open)` exactly for the open basis. |
| WatchlistColumns.ChangeTone | src/features/dashboard/components/watchlist-columns.tsx:73-77 | The change cell has the gain colour exactly when pct ≥ 0. |
| WatchlistColumns.ChangeCellAgrees | src/features/dashboard/components/watchlist-columns.tsx:73-77 | The cell text starts with `+` exactly when ltp is above the base, and with `-` exactly when below. The colour agrees. |
| WatchlistColumns.ExchangeLabel | src/features/dashboard/components/watchlist-columns.tsx:38 | A missing exchange shows as `NSE`. The label is always one of NSE, BSE, MCX or NFO. |
| WatchlistColumns.GroupLabel | src/features/dashboard/components/watchlist-columns.tsx:56 | A missing group shows as `General`. Otherwise the group is shown verbatim. |
| WatchlistColumns.MarketCapCompare | src/features/dashboard/components/watchlist-columns.tsx:118 | The comparator's sign is the order of the two market caps. |
| WatchlistColumns.MarketCapIsOrder | src/features/dashboard/components/watchlist-columns.tsx:118 | The market-cap comparator is antisymmetric and transitive. |
| WatchlistTable.Locate | src/features/dashboard/components/watchlist-table.tsx:81-88 | A row id resolves exactly when it is a rendered row whose symbol is in the data. The result is the first data index with that symbol. |
| WatchlistTable.Dropped | src/features/dashboard/components/watchlist-table.tsx:89-91 | A drop is a permutation of the same length. The moved item lands at the target's former index. The other items keep their relative order. |
| WatchlistTable.DropKeepsSymbols | src/features/dashboard/components/watchlist-table.tsx:89-92 | The symbol list is moved the same way and keeps each symbol as often as before. |
| WatchlistTable.SaveNote | src/features/dashboard/components/watchlist-table.tsx:181-183 | Items with that symbol get the note. Every other item, and every other field, is unchanged. |
| WatchlistTable.SaveNoteFacts | src/features/dashboard/components/watchlist-table.tsx:181-183 | Saving keeps the order of symbols and is idempotent. A saved non-empty note shows the Note badge. |
| WatchlistTable.FilterRows | src/features/dashboard/components/watchlist-table.tsx:52-57 | The kept rows are an order-preserving subsequence of matching rows, each kept as many times as it occurs. An empty or undefined query keeps all rows. |
| WatchlistTable.SectorOptions | src/features/dashboard/components/watchlist-table.tsx:68 | The sector facet lists each sector of the data exactly once. |
| WatchlistTable.GroupOptions | src/features/dashboard/components/watchlist-table.tsx:69 | The group facet lists each group exactly once, with a missing group counted as `General`. |
| WatchlistTable.WatchlistTableState.constructor | src/features/dashboard/components/watchlist-table.tsx:27-33 | Data is copied from `items`, or from the default list. The basis defaults to `prevClose`. No drag is in progress and the dialog is closed. |
| WatchlistTable.WatchlistTableState.ReceiveProps | src/features/dashboard/components/watchlist-table.tsx:27-33 | New props change only the basis. The data state keeps its first value. |
| WatchlistTable.WatchlistTableState.HandleDragStart | src/features/dashboard/components/watchlist-table.tsx:76 | Records the dragged row id and changes nothing else. |
| WatchlistTable.WatchlistTableState.HandleDrop | src/features/dashboard/components/watchlist-table.tsx:78-94 | Applies `Dropped` and clears the drag when every guard passes: a drag source, distinct from the target, both rows rendered, both symbols in the data. Any failed guard leaves the data and the drag id as they were. |
| WatchlistTable.WatchlistTableState.Splice | src/features/dashboard/components/watchlist-table.tsx:89-93 | Data becomes the item moved from oldIndex to newIndex, and the drag ends. |
| WatchlistTable.WatchlistTableState.OnSaveNote | src/features/dashboard/components/watchlist-table.tsx:181-183 | Data becomes `SaveNote` of the old data. Nothing else changes. |
| WatchlistTable.WatchlistTableState.OpenDetails | src/features/dashboard/components/watchlist-table.tsx:147-150 | A double-click selects the row's item and opens the dialog. |
| WatchlistTable.WatchlistTableState.Apply | src/features/dashboard/components/watchlist-table.tsx:177-184 | A dialog's request is applied: a note save goes to the data, and an open change goes to `detailsOpen`. |
| WatchlistTable.WatchlistTableState.GuardPageIndex | src/features/dashboard/components/watchlist-table.tsx:60-65 | With no pages the index becomes 0. Otherwise it is kept. |
| WatchlistTable.WatchlistTableState.Visible | src/features/dashboard/components/watchlist-table.tsx:166-170 | The body is the single 11-column empty-state row exactly when nothing matches. Data rows all match. |
| WatchlistTable.SaveFromDialog | src/features/dashboard/components/watchlist-table.tsx:177-184 | The dialog is given the table's selection (`item={selected}`). Save stores the draft note on the selected symbol in `data` and closes the dialog. The drag, the selection, the page and the basis are unchanged. |
| InstrumentDetails.OhlcOf | src/features/dashboard/components/instrument-details-dialog.tsx:24-29 | Open is `open ?? ltp` and close is `prevClose ?? ltp`. High and low are dayHigh and dayLow. |
| InstrumentDetails.Bids | src/features/dashboard/components/instrument-details-dialog.tsx:73-78 | Five levels numbered 1 to 5, each with qty 1000·level and price ltp − 0.5·level, half a rupee per level below the last price. |
| InstrumentDetails.Asks | src/features/dashboard/components/instrument-details-dialog.tsx:84-89 | Five levels numbered 1 to 5, each with qty 1000·level and price ltp + 0.5·level, half a rupee per level above the last price. |
| InstrumentDetails.BookIsOrdered | src/features/dashboard/components/instrument-details-dialog.tsx:73-89 | Bid prices strictly fall and ask prices strictly rise. Every bid is below ltp, which is below every ask. The touch spread is 1. |
| InstrumentDetails.DetailsDialog.constructor | src/features/dashboard/components/instrument-details-dialog.tsx:16-20 | The note starts as the item's note, or `''`. |
| InstrumentDetails.DetailsDialog.SetItem | src/features/dashboard/components/instrument-details-dialog.tsx:18-20 | A changed item resets the note to the new item's note. The same item keeps the draft. |
| InstrumentDetails.DetailsDialog.Edit | src/features/dashboard/components/instrument-details-dialog.tsx:101 | Typing replaces the draft note. |
| InstrumentDetails.DetailsDialog.Save | src/features/dashboard/components/instrument-details-dialog.tsx:110-115 | `onSaveNote(symbol, note)` is requested exactly when there is an item and a callback. Closing is always requested. |
| InstrumentDetails.DetailsDialog.Close | src/features/dashboard/components/instrument-details-dialog.tsx:107-109 | Close requests closing and saves nothing. |
| InstrumentDetails.EditCloseReopen | src/features/dashboard/components/instrument-details-dialog.tsx:16-20 | An edit dropped by Close saves nothing. Reopening the same item shows the draft again. |
| DashboardAggregates.Tally | src/features/dashboard/index.tsx:401-405 | The filled dictionary's entries are each key once, in order of first insertion, with the total of its elements. Their values sum to the total weight. |
| DashboardAggregates.Tallied | src/features/dashboard/index.tsx:401-405 | There is one entry per distinct key. |
| DashboardAggregates.RunEntries | src/features/dashboard/index.tsx:401-405 | Running the loop step by step gives the specified entries and preserves the sum. |
| DashboardAggregates.SortDesc | src/features/dashboard/index.tsx:408 | The sort result is in descending value order, a permutation of its input, with the same sum. |
| DashboardAggregates.InsertSorted | src/features/dashboard/index.tsx:408 | Inserting into a descending list keeps it descending. |
| DashboardAggregates.Share | src/features/dashboard/index.tsx:411 | A zero total gives 0 percent. |
| DashboardAggregates.ShareMonotone | src/features/dashboard/index.tsx:411 | Over a positive total, a larger value never gets a smaller percent. |
| DashboardAggregates.ShareBounds | src/features/dashboard/index.tsx:411 | A non-negative part of a positive total gets a percent between 0 and 100. |
| DashboardAggregates.PnlIsValueLessCost | src/features/dashboard/index.tsx:394-398 | Total P&L equals total market value less total cost. |
| DashboardAggregates.HoldingsTab | src/features/dashboard/index.tsx:394-412 | Market value is Σ qty·ltp and P&L is Σ (ltp − avgPrice)·qty. Positions is the number of holdings. The sector sums add up to the market value. The sector entries are a permutation of the tally, in descending value order. Each percent is `Share` of its value: 0 for a zero total, otherwise descending. |
| DashboardAggregates.WatchlistTab | src/features/dashboard/index.tsx:507-520 | The summary is the watchlist page's. The sector counts are a permutation of the tally, in descending order, and sum to the number of items. |
| DashboardAggregates.SumOfOnes | src/features/dashboard/index.tsx:514-517 | Counting one per item gives the item count. |
| WatchlistPage.ListFilter | src/features/watchlist/index.tsx:55-66 | The result is an order-preserving subsequence holding exactly the items of the chosen list (Banking sector, IT sector or Core group), each as many times as it occurs. `all` is the identity. |
| WatchlistPage.Advancers | src/features/watchlist/index.tsx:68 | The value is the number of positions whose item has `changePct ?? 0` above 0. |
| WatchlistPage.Decliners | src/features/watchlist/index.tsx:69 | The value is the number of positions whose item has `changePct ?? 0` below 0. |
| WatchlistPage.MarketBreadth | src/features/watchlist/index.tsx:68-69 | Advancers, decliners and unchanged items partition the list, so advancers plus decliners never exceed it. |
| WatchlistPage.AvgChange | src/features/watchlist/index.tsx:70-72 | The average is 0 for an empty list. Otherwise it is the mean: average · n equals the sum. |
| WatchlistPage.TotalChangeBounds | src/features/watchlist/index.tsx:70-72 | The sum of changes lies between n·lo and n·hi for any bounds lo and hi on the changes. |
| WatchlistPage.AvgWithinBounds | src/features/watchlist/index.tsx:70-72 | The average lies within the range of the changes. |
| WatchlistPage.Alerts | src/features/watchlist/index.tsx:73 | The value is the number of positions whose item has a truthy alert. |
| WatchlistPage.Summarize | src/features/watchlist/index.tsx:68-73 | The summary card's advancers plus decliners, and its alerts, never exceed the item count. |
| WatchlistPage.WatchlistPageState.constructor | src/features/watchlist/index.tsx:53-54 | The page opens on all items against the previous close. A fresh table is seeded with them, with no drag, no selection, the details dialog closed and page 0. |
| WatchlistPage.WatchlistPageState.SetBasis | src/features/watchlist/index.tsx:53 | A new basis reaches the table unchanged. The table's data, drag, selection, dialog and page are kept. |
| WatchlistPage.WatchlistPageState.SelectListAsWritten | src/features/watchlist/index.tsx:83 | As written, choosing a list changes the key but leaves the table's data as it was. The table keeps the page's basis and its own drag, selection, dialog and page. |
| WatchlistPage.WatchlistPageState.SelectList | src/features/watchlist/index.tsx:55-66 | With the table re-seeded, its data is the chosen list's items, against the page's basis. The fresh table has no drag, no selection, the dialog closed and page 0. |
| WatchlistPage.StaleTableAfterSelect | src/features/watchlist/index.tsx:104 | After switching to Banking, the table still shows 2 rows while the summary covers 1. |
| WatchlistPage.TableFollowsSelect | src/features/watchlist/index.tsx:104 | With the re-seed, the table and the summary both cover 1 row. |
| ImportFlow.Importer.constructor | src/features/dashboard/index.tsx:50-52 | The initial mode is ready exactly when the stored flag is `'true'`, and idle otherwise. The picker is closed, no source is set, step and timers are at 0, and the flag is read. |
| ImportFlow.Importer.EnterSyncing | src/features/dashboard/index.tsx:79-96 | Entering syncing from another mode restarts the steps and their timers. Staying in syncing keeps them. Nothing else changes. |
| ImportFlow.Importer.OnSearch | src/features/dashboard/index.tsx:64-77 | When ready, nothing changes. A source enters syncing with that source and the picker closed. Without a source, `import` only opens the picker. The mode only moves forward, and no other field changes. |
| ImportFlow.Importer.StartImport | src/features/dashboard/index.tsx:98 | The Import button opens the picker and changes nothing else. |
| ImportFlow.Importer.SetSelectOpen | src/features/dashboard/index.tsx:636 | The picker's open state is what it asks for. Nothing else changes. |
| ImportFlow.Importer.ChooseSourceAsWritten | src/features/dashboard/index.tsx:99-103 | As written, any mode, ready included, enters syncing with the picker closed and that source. Steps and timers restart unless a sync was already running. Nothing else changes. |
| ImportFlow.Importer.ChooseSource | src/features/dashboard/index.tsx:99-103 | With the ready guard, the mode only moves forward. Idle or syncing enters syncing with that source. Ready only closes the picker. Nothing else changes. |
| ImportFlow.Importer.Tick | src/features/dashboard/index.tsx:83-93 | The first three timers show steps 0, 1 and 2. The fourth stores the flag and goes to ready. Timers outside a sync change nothing. No other field changes on any path. |
| ImportFlow.ImportRuns | src/features/dashboard/index.tsx:85-92 | Choosing a broker and letting the four timers fire ends ready, with the flag stored. |
| ImportFlow.ReadyReentered | src/features/dashboard/index.tsx:99-103 | As written, the dashboard can leave ready again. |
| ImportFlow.ReadyStays | src/features/dashboard/index.tsx:64-77 | With the guard, the same events leave it ready. |
| PointsStore.InitialPoints | src/stores/points-store.ts:15-23 | The balance is the cookie's number when it is present, non-empty and finite. Otherwise it is 100. |
| PointsStore.Store.constructor | src/stores/points-store.ts:14-23 | The store starts from `InitialPoints` of the cookie, so a reload would show the same balance. |
| PointsStore.Store.Spend | src/stores/points-store.ts:24-32 | Returns true exactly when amount ≤ 0 or the balance covers it. Refused and non-positive spends change nothing. A spend that goes ahead lowers the balance by exactly the amount and persists it. A non-negative balance stays non-negative. |
| PointsStore.Store.Earn | src/stores/points-store.ts:33-38 | Adds max(0, amount) and persists the result. The balance never decreases. |
| PointsStore.Store.Reset | src/stores/points-store.ts:39-47 | `reset(n)` sets and persists n. `reset()` removes the cookie and sets 100. |
| PointsStore.SpendEarnScenario | src/stores/points-store.ts:24-38 | From 100: spending 150 is refused, earning 30 gives 130, and spending −5 changes nothing. |
| Polls.RolelessUserPays | src/features/polls/index.tsx:67-68 | A signed-in user with no role is not free and may always create. |
| Polls.EnabledMeansQuestion | src/features/polls/index.tsx:209 | An enabled Create button means: not submitting, a non-blank question, and for a free user at least 10 points. |
| Polls.NewMarket | src/features/polls/index.tsx:80-89 | The new market has an even 0.5/0.5 book, no change and no volume. Its question is trimmed. The resolve date is today's when none was given. |
| Polls.PollsPage.constructor | src/features/polls/index.tsx:36-65 | The page starts with the two seed markets, the dialog closed and an empty form. |
| Polls.PollsPage.OnSubmitCreate | src/features/polls/index.tsx:70-96 | A free user without 10 points changes nothing. A free user with them pays exactly 10. Others pay nothing. On success the new market is prepended to the others, the dialog closes and the form resets. `creating` ends false. |
| Polls.PollsPage.Publish | src/features/polls/index.tsx:80-92 | Prepends the form's market, closes the dialog and clears the form. |
| Polls.TwoPollsOnFifteenPoints | src/features/polls/index.tsx:70-96 | A signed-out visitor with 15 points creates one poll. The second is refused, leaving 5 points. |
| TradeTalkies.RoleToBadge | src/features/trade-talkies/index.tsx:50-63 | The badge is `System` exactly for the system speaker. |
| TradeTalkies.BadgesDistinct | src/features/trade-talkies/index.tsx:50-63 | Different speakers get different badges. |
| TradeTalkies.ManageImpliesModerate | src/features/trade-talkies/index.tsx:173-174 | `canManage` implies `canModerate`. The two differ exactly for moderators. With no room both are false. |
| TradeTalkies.GetSenderInfo | src/features/trade-talkies/index.tsx:66-78 | The system sender is System/System. `you` gets the room's role badge, and the name of the first member whose lower-cased name is "you", or `You` when there is none. Anyone else gets the member's name and role, or `User`/`Member` when unknown. |
| TradeTalkies.SystemBadgeOnlyForSystem | src/features/trade-talkies/index.tsx:66-78 | Only system messages are badged System. |
| TradeTalkies.SeedSenders | src/features/trade-talkies/index.tsx:80-139 | In the seed rooms your messages carry your role and the welcome message is badged System. |
| TradeTalkies.Discover | src/features/trade-talkies/index.tsx:617-619 | The grid is the order-preserving subsequence of public rooms whose lower-cased name contains the lower-cased query, each kept as many times as it occurs. |
| TradeTalkies.DiscoverAllPublic | src/features/trade-talkies/index.tsx:617-619 | An empty query shows every public room. |
| TradeTalkies.Normalize | src/features/trade-talkies/index.tsx:258 | `trim().toLowerCase()` is empty exactly for blank input. Otherwise it is a stored tag: no edge white space and no upper case. |
| TradeTalkies.NormalizeIdempotent | src/features/trade-talkies/index.tsx:258 | Normalising twice is normalising once. |
| TradeTalkies.ParseTags | src/features/trade-talkies/index.tsx:223-228 | The tags are exactly the non-empty normalised comma-separated parts, each as many times as it occurs, in input order. Each is a stored tag with no comma. |
| TradeTalkies.ParseJoinedTags | src/features/trade-talkies/index.tsx:223-228 | Stored tags written out with commas between them parse back to the same tags in the same order. |
| TradeTalkies.FindRoom | src/features/trade-talkies/index.tsx:165 | Finds the first room with the id, or none exactly when no room has it. |
| TradeTalkies.FindChannel | src/features/trade-talkies/index.tsx:166-169 | Finds a channel of the room with the id, or none exactly when there is no room or no such channel. |
| TradeTalkies.NewRoom | src/features/trade-talkies/index.tsx:223-242 | The room is `room-` plus the first clock read, with memberCount 1, role owner and joined set. It has a single `general` channel, `chan-` plus the second clock read, and you as its owner. Tags come from the chips, else from the parsed text, else none. An age limit is set only with the age gate on. |
| TradeTalkies.AddChannel | src/features/trade-talkies/index.tsx:273-277 | Appends the channel to the room with that id only. Ids and the other rooms are unchanged. |
| TradeTalkies.MarkJoined | src/features/trade-talkies/index.tsx:285-291 | The matching room counts exactly one member more and is joined. The others are unchanged. |
| TradeTalkies.JoinTwiceCountsTwice | src/features/trade-talkies/index.tsx:283-295 | There is no re-join guard: two joins add two members. |
| TradeTalkies.Post | src/features/trade-talkies/index.tsx:558-582 | Appends the message to that channel of that room only. |
| TradeTalkies.PostAppendsOnce | src/features/trade-talkies/index.tsx:558-582 | After a post the chosen channel's messages are the old ones plus the new one, last. Every other channel is unchanged. |
| TradeTalkies.TradeTalkiesState.constructor | src/features/trade-talkies/index.tsx:141-163 | Every field starts as `useState` sets it: My Rooms, the seed rooms, room-1 and chan-1 selected, both dialogs closed, the wizard at step 1 with empty name, text and chips, age gate off at 18, public, no channel name, no preview. |
| TradeTalkies.TradeTalkiesState.AddTag | src/features/trade-talkies/index.tsx:257-262 | Blank input changes nothing. Otherwise the normalised tag is added once, with no duplicate, and the text box is cleared. No other field changes. The chips stay distinct stored tags. |
| TradeTalkies.TradeTalkiesState.Chip | src/features/trade-talkies/index.tsx:260-261 | A tag already present is not added again. The text box is cleared. No other field changes. |
| TradeTalkies.TradeTalkiesState.RemoveTag | src/features/trade-talkies/index.tsx:264-266 | Removes exactly that tag and keeps the others in order. No other field changes. |
| TradeTalkies.TradeTalkiesState.AddThenRemove | src/features/trade-talkies/index.tsx:257-266 | Removing a chip just added restores the chip list. Only the text box differs from before. |
| TradeTalkies.TradeTalkiesState.CreateRoom | src/features/trade-talkies/index.tsx:220-254 | A blank name changes nothing. Otherwise `NewRoom`, with ids from two clock reads, goes on top, it and its channel are selected, and the wizard resets. The tab, the channel dialog, the channel name and the preview are kept. |
| TradeTalkies.TradeTalkiesState.Install | src/features/trade-talkies/index.tsx:243-253 | The room goes on top, it and its first channel become the selection, and every wizard field is back at its default. Nothing else changes. |
| TradeTalkies.TradeTalkiesState.ResetWizard | src/features/trade-talkies/index.tsx:246-253 | Closes the dialog and resets name, tags, chips, age gate, age limit 18, public and step 1. Nothing else changes. |
| TradeTalkies.TradeTalkiesState.CreateChannel | src/features/trade-talkies/index.tsx:268-281 | No selected room, or a blank name, changes nothing. Otherwise the channel is added to the selected room only and selected, the dialog closes and the name is cleared. Nothing else changes. |
| TradeTalkies.TradeTalkiesState.Open | src/features/trade-talkies/index.tsx:273-280 | Adds the channel to the selected room, selects it, closes the dialog and clears the name. Nothing else changes. |
| TradeTalkies.TradeTalkiesState.JoinRoom | src/features/trade-talkies/index.tsx:283-295 | Rooms become `MarkJoined`. The room is selected, the tab is My Rooms and the preview is off. Nothing else changes. |
| TradeTalkies.TradeTalkiesState.OpenPreview | src/features/trade-talkies/index.tsx:297-304 | An unknown room changes nothing. Otherwise the room is selected on its first channel (or the current one), on My Rooms, previewing exactly when not joined. Nothing else changes. |
| TradeTalkies.TradeTalkiesState.SubmitMessage | src/features/trade-talkies/index.tsx:553-582 | With no room or channel, in a preview of an unjoined room, or with blank text, nothing changes. Otherwise the trimmed message from you goes last in the selected channel of the selected room, and no other field changes. |
| TradeTalkies.TradeTalkiesState.Deliver | src/features/trade-talkies/index.tsx:558-582 | Rooms become `Post` of the selected room and channel. Nothing else changes. |
| TradeTalkies.TradeTalkiesState.SetCreateRoomOpen | src/features/trade-talkies/index.tsx:666-671 | The dialog's own `onOpenChange` sets the open flag. When the dialog itself reports open, the wizard restarts at step 1. Nothing else changes. |
| TradeTalkies.TradeTalkiesState.Back | src/features/trade-talkies/index.tsx:788 | One step down, never below 1. Nothing else changes. |
| TradeTalkies.TradeTalkiesState.Next | src/features/trade-talkies/index.tsx:795-796 | One step up, never above 4. A disabled click on step 1 with a blank name changes nothing, so steps past 1 need a name. Nothing else changes. |
| TradeTalkies.TradeTalkiesState.SetRoomDialog | src/features/trade-talkies/index.tsx:360 | The direct `setCreateRoomOpen` of the sidebars' create-room button (also at :855) and of Cancel (:784). Only the open flag changes: the step and every other wizard field are kept. |
| TradeTalkies.TradeTalkiesState.SetRoomName | src/features/trade-talkies/index.tsx:687 | The name box replaces the room name. Nothing else changes. |
| TradeTalkies.TradeTalkiesState.SetRoomTags | src/features/trade-talkies/index.tsx:699 | The tag box replaces the tag text. The chips are unchanged. Nothing else changes. |
| TradeTalkies.TradeTalkiesState.SetAgeGateEnabled | src/features/trade-talkies/index.tsx:745 | The switch sets the age gate. Nothing else changes. |
| TradeTalkies.TradeTalkiesState.SetAgeLimit | src/features/trade-talkies/index.tsx:756 | The age box sets the limit to the number given. Nothing else changes. |
| TradeTalkies.TradeTalkiesState.SetPublic | src/features/trade-talkies/index.tsx:769 | The radio group sets public or private. Nothing else changes. |
| TradeTalkies.TradeTalkiesState.SetTab | src/features/trade-talkies/index.tsx:377 | The tab strip, and the sidebars' Discover buttons (:368, :847), set the tab. Nothing else changes. |
| TradeTalkies.TradeTalkiesState.SelectRoom | src/features/trade-talkies/index.tsx:354-359 | The sidebars' `onSelectRoom` (also :848-853) switches to My Rooms and selects the room. It takes the room's first channel only when the room is known and that channel's id is non-empty (`if (first)`), and then that channel is the selected one. Otherwise the channel selection stays. The preview flag is kept. |
| TradeTalkies.TradeTalkiesState.SelectChannel | src/features/trade-talkies/index.tsx:425 | A click in the channel list selects that channel. Nothing else changes. |
| TradeTalkies.TradeTalkiesState.SheetSelectChannel | src/features/trade-talkies/index.tsx:858 | The mobile sheet selects the channel and switches to My Rooms. Nothing else changes. |
| TradeTalkies.TradeTalkiesState.SetCreateChannelOpen | src/features/trade-talkies/index.tsx:810 | The channel dialog's open flag is set, as by its `onOpenChange`, the create-channel buttons (:410, :859) and Cancel (:818). Nothing else changes. |
| TradeTalkies.TradeTalkiesState.SetChannelName | src/features/trade-talkies/index.tsx:816 | The channel name box replaces the channel name. Nothing else changes. |
| TradeTalkies.ReopenKeepsProgress | src/features/trade-talkies/index.tsx:666-671 | Typing a name, Next, Cancel and reopening from the sidebar gives an open wizard on step 2 with the name kept. Only the dialog's own `onOpenChange` restarts the step. |
| Dock.MaxHeight | src/components/layout/dock.tsx:174 | The grown height is max(dockHeight, 1.5·magnification + 4), so it is never below dockHeight. |
| Dock.TargetHeight | src/components/layout/dock.tsx:175 | At rest the dock aims for the panel height. Hovered, it aims for at least dockHeight. |
| Dock.DefaultMaxHeight | src/components/layout/dock.tsx:160-163 | With the default props (256, 70) the hovered height is 256. |
| Dock.Swipe.constructor | src/components/layout/dock.tsx:168-172 | Not hovered, not pressing, no pointer, no start, not triggered. |
| Dock.Swipe.PointerDown | src/components/layout/dock.tsx:181-187 | Sets hovered and pressing, records x and startY, and clears the trigger. |
| Dock.Swipe.PointerMove | src/components/layout/dock.tsx:188-198 | Fires exactly when pressing, with a start, not yet triggered, with upward travel beyond 48 and a handler given. Fires at most once per press. |
| Dock.Swipe.Reset | src/components/layout/dock.tsx:199-219 | Clears hovered and pressing, the pointer, startY and the trigger. |
| Dock.Swipe.PointerUp | src/components/layout/dock.tsx:199-205 | Resets the gesture. |
| Dock.Swipe.PointerCancel | src/components/layout/dock.tsx:206-212 | Resets the gesture. |
| Dock.Swipe.PointerLeave | src/components/layout/dock.tsx:213-219 | Resets the gesture. |
| Dock.Swipe.MoveWithoutPress | src/components/layout/dock.tsx:191 | A move without a press never fires. |
| Dock.Item.PointerEnter | src/components/layout/dock.tsx:84-89 | Entering an item hovers it. It activates the item exactly when the dock is pressed and the item has a click handler. |
| Dock.Item.Unhover | src/components/layout/dock.tsx:90-94 | Leaving, hover end and blur clear the hover. |
| Dock.SwipeOncePerPress | src/components/layout/dock.tsx:181-205 | Two upward moves in one press fire once. A new press fires again. |
| Dock.ExactThresholdDoesNotFire | src/components/layout/dock.tsx:193 | A travel of exactly 48 does not fire. |
| Dock.SlideActivates | src/components/layout/dock.tsx:84-89 | Sliding onto an item while pressed activates it. Merely hovering does not. |
| ChatInputBar.ResolvedPosition | src/features/chats/components/chat-input-bar.tsx:26 | An explicit position wins. Otherwise it is `sticky` exactly on mobile and `fixed` exactly elsewhere. |
| ChatInputBar.InputBox.constructor | src/features/chats/components/chat-input-bar.tsx:53 | The box starts empty. |
| ChatInputBar.InputBox.Type | src/features/chats/components/chat-input-bar.tsx:53 | Typing replaces the box's text. |
| ChatInputBar.InputBox.Submit | src/features/chats/components/chat-input-bar.tsx:50-57 | Something is sent exactly when a handler is given and the text is not blank. What is sent is the trimmed text: non-empty, with no white space at either end. The box is always cleared. |
| ChatInputBar.SentIsTrimmed | src/features/chats/components/chat-input-bar.tsx:54-55 | What is sent trims to itself. It is sent exactly when the text is not blank. |
| ChatInputBar.BlankSubmitClears | src/features/chats/components/chat-input-bar.tsx:55-56 | A blank submit sends nothing yet clears the box. |

## Left out

- `formatINR` and `formatCompact` (`Intl.NumberFormat`), and the trade-talkies date formatting, are locale formatting with no logic of their own.
- Numbers are reals, so NaN, the infinities and floating-point rounding are not modelled. `toFixed(2)` is modelled as exact rounding half up on the magnitude. Its exponent form for |x| ≥ 1e21 is left out.
- `Math.round` is modelled as floor(x + 1/2), which is its definition on exact reals.
- DashboardAggregates.SortDesc: the contract does not state that equal values keep their input order, as the stable `Array.prototype.sort` does.
- `Number(cookie)` is a parameter of the cookie value. Its result is `None` when it is not finite.
- The default watchlist in `src/features/dashboard/data/watchlist.ts` is not part of this model. The table takes it as the parameter `defaultList`.
- The table library's own pipeline is not modelled: sorting, its stability, pagination slicing and the composition of column facets with the global filter. The model supplies the predicates, comparators, page guard and body rule this code hands to the library. `rows` stands for the row model it renders.
- HoldingsColumns.SectorFilter, WatchlistColumns.SectorFilter, WatchlistColumns.AlertBadge and WatchlistColumns.NoteBadge are plain predicates with no separate contract. They are used in the contracts of `SaveNoteFacts` and `Alerts`.
- `Object.entries` lists keys in insertion order in this model. JavaScript lists integer-like keys first, and a sector name such as `constructor` would clash with `Object.prototype`. Sector names are neither.
- Lower-casing covers ASCII letters only. Unicode case mapping is not modelled.
- InstrumentDetails.DetailsDialog.SetItem compares items by value. React compares the `item` prop by reference.
- React's re-render timing and effect scheduling are not modelled.
- The dashboard's watchlist tab calls `useState`, `useState` and `useMemo` (src/features/dashboard/index.tsx:493-495) inside the ready branch of the `mode` conditional (:119, :166). So the number of hooks the dashboard calls changes whenever `mode` enters or leaves ready within one mount, and React rejects such a render with an error. The fourth timer of a sync (`ImportFlow.Importer.Tick` to ready) is such a change, and so is leaving ready. The model treats those three hooks as if they were called on every render. It therefore does not capture that, as the file stands, the dashboard fails at the end of every sync; `ImportRuns`, `ReadyReentered` and `ReadyStays` describe the flow once the hooks are hoisted.
- The chevron button above the dock (src/components/layout/dock.tsx:229-241) only forwards to `onSwipeUp` and is not modelled.
- `setTimeout` timing in the import flow is replaced by `Tick`, one call per timer in order. Clearing timers on unmount is not modelled.
- `requestAnimationFrame` scrolling, sidebar timers and the motion springs are not modelled: the dock item's size from `mouseX` distance, and the spring behind `heightRow`.
- TradeTalkies.TradeTalkiesState.JoinRoom keeps the room's role. The source writes `role || 'member'`, which keeps every role, because a room always has one.
- The message `type` field, invites and the discover query's text box are display state with no logic.
- The sidebar's own open flag (`sidebarOpen`), its close timer, and the mobile sheet closing itself after a choice are display state and are not modelled. The sidebars' callbacks that change page state are modelled: SelectRoom, SetTab, SetRoomDialog, SheetSelectChannel and SetCreateChannelOpen.
- TradeTalkies.TradeTalkiesState.SetAgeLimit takes the number that `Number(e.target.value)` yields as an integer. NaN and fractional values are not modelled.
- In ChatInputBar.InputBox.Submit the text input always exists. `querySelector` returning null, where nothing would be sent or cleared, is not modelled.

## Findings

| source | as written | input that shows it | evidently intended | confidence | as-written member | corrected member |
|---|---|---|---|---|---|---|
| src/features/dashboard/components/watchlist-table.tsx:33 | `useState(items ?? watchlist)` copies the `items` prop once. The watchlist page and the dashboard tab pass a new filtered list whenever the selector changes (src/features/watchlist/index.tsx:104), but the table keeps its first list. | The list HDFCBANK (Banking) and TCS (IT), then choose the Banking list. The table still shows 2 rows while the summary counts 1. | The table shows the chosen list, for example by remounting it per list key. | medium, not executed | WatchlistPage.WatchlistPageState.SelectListAsWritten | WatchlistPage.WatchlistPageState.SelectList |
| src/features/dashboard/index.tsx:99-103 | `chooseSource` sets syncing from any mode. The search effect gives up once ready, but it leaves a picker opened by `?import=true` during a sync open past the end of the sync. | `?source=Zerodha`, then `?import=true` while syncing, then let the four timers fire (ready), then choose Groww. The mode goes back to syncing. This path crosses into ready within one mount, so as the file stands React first rejects the render at the fourth timer (the conditional hooks under "## Left out"). The path is reachable once those hooks are hoisted. | Ready is final: the search effect guards on it, so choosing a source when ready should only close the picker. | low, not executed | ImportFlow.ReadyReentered | ImportFlow.ReadyStays |
