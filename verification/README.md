# Verified model of the board server and client

This project models the parts of Focalboard, a project-board application with a Go server and a
TypeScript client, whose correctness rests on state kept over many calls, and proves what those parts
promise.  There is one module for each component:

- `CallbackQueue`: the server's background queue as a state machine over the atomic steps of enqueuers,
  workers and Shutdown callers.  A run is any sequence of enabled steps, so statements about runs are
  statements about all interleavings.
- `Ids`, `BlockIds`, `BoardsAndBlocks`: giving new IDs to a tree of blocks, in place, and to whole boards.
- `Lines`, `ClientArchive`, `ServerArchive`: writing archives line by line and reading them back, and the
  import that gives everything new IDs and adds the members.
- `Members`: the members of a board and its last admin.
- `Categories`: the sidebar categories, over a store of two tables.
- `Subscriptions`, `WsServer`, `PluginAdapter`: the websocket front ends and their two-way indexes.
- `Cards`, `BoardGroups`, `TypeChange`, `CardFilter`: columns, property types and filters of a board view.
- `BoardPatch`, `OctoUtils`, `ContentBlocks`: patching a board, merging and duplicating blocks, and moving
  content blocks.
- `Sequences`: options and lists, shared by all.

Where the source changes state, the model is a class or a method with the same loops, tied by its
postcondition to a function of the old state; the lemmas are about those functions.

What the services answer is an input: the random draws behind an ID (`Ids.IdSupply`), the clock, access
decisions, the members of a board, and the JSON text of a single value.  A JSON codec is a pair of functions
of which the second undoes the first, and its texts are non-empty and hold no line break, since section 7 of
RFC 8259 has control characters in strings escaped.

## Where the code differs from what is said about it

- A second Shutdown call answers true at once, whatever the pool is doing
  (`CallbackQueue.RepeatedShutdownMayReturnEarly`), and a callback accepted just before the flag can be lost
  (`CallbackQueue.LossHappens`): a call of Shutdown can lose one exactly if some accepted callback has not been
  sent when it is made (`CallbackQueue.MayLoseIff`).
- Re-issuing block IDs keeps "any references", but `cardOrder` entries do not count as references
  (`BlockIds.CardOrderFollowsIff`), and an ill-typed `contentOrder` hides `defaultTemplateId`
  (`BlockIds.DefaultTemplateCounted`).
- A parent that is the old board ID is not renamed when boards get new IDs (`ServerArchive.ExportThenImport`),
  and an archive without blocks is refused (`BoardsAndBlocks.IsValid`).  If a board ID is listed twice, its
  blocks are re-issued twice and every link to them is lost (`BoardsAndBlocks.RepeatedBoardLosesLinks`).
- The client archive refuses an archive dated 0 (`ClientArchive.ArchiveRoundTrip`), and the server's import
  reports every error for line 1, since its line number never changes (`ServerArchive.FailsAt`).
- Creating the default category shows boards as visible that are stored as hidden
  (`Categories.ShownVisibleIff`); deleting a custom category named "Boards" drops its boards
  (`Categories.DeleteConserves`, `Categories.TargetLiveIff`); and the check that all boards of a category are
  named in a new order accepts an order that repeats one board and misses another
  (`Categories.IncompleteOrderAccepted`).
- Adding a board to a category does not check whose category it is, and a refused addition still stores its row
  (`Categories.AddStoresAnyway`).  The boards of a category are looked up without their user, so such a row can
  move another user's board when that user deletes the category (`Categories.RefusedAddMovesBoard`,
  `Categories.TwoUsersRun`), can leave a board in two categories when the default one is created
  (`Categories.PlacedTwice`), and can make a category list a board twice, so that every correct order of it is
  refused and only an order that repeats a board can be accepted (`Categories.RefusedAddBlocksOrders`,
  `Categories.CorrectOrderRefused`).
- Changing between the two select types loses all options of a board without cards
  (`TypeChange.OptionsKeptIff`), and changing a select property to a text deletes the values
  (`TypeChange.DeletedIff`).
- A hidden empty person column stays visible (`BoardGroups.GetPersonGroups`), grouping by person fails on a key
  such as "constructor" (`BoardGroups.EntriesByKey`), and a creation time exactly half a
  day from a filter's date is neither before, nor at, nor after it (`CardFilter.OneOfThreeIff`).
- Undoing the move of a content block that was beside a row never restores the order, since the client sends the
  row's list where the server wants the ID of a block (`ContentBlocks.ClientUndoIff`).
- A card property both deleted and updated by one patch comes out twice (`BoardPatch.PatchedTimes`).

## Model

| member | source | states |
|---|---|---|
| CallbackQueue.CallbacksConserved | server/utils/callbackqueue.go:53-135 | in every interleaving the callbacks sent are, in send order, the started ones in start order followed by the queued ones; each accepted one is sent, parked or about to be sent, each started one finished or in flight, so none is lost or runs twice; with one worker they finish in send order |
| CallbackQueue.ExitTokenNeverBlocks | server/utils/callbackqueue.go:39-39 | a worker that leaves its loop always finds room for its exit token |
| CallbackQueue.PoolGoneWhenDraining | server/utils/callbackqueue.go:62-71 | once Shutdown has collected all tokens every worker has exited and runs nothing |
| CallbackQueue.FinalPoll | server/utils/callbackqueue.go:73-83 | if the winning Shutdown returned true, the run has one final empty poll after which it returned |
| CallbackQueue.EmptyPoll | server/utils/callbackqueue.go:73-83 | at an empty poll every callback sent so far has finished |
| CallbackQueue.AfterReturn | server/utils/callbackqueue.go:73-101 | nothing starts or finishes after the winning Shutdown has returned true |
| CallbackQueue.ShutdownTrue | server/utils/callbackqueue.go:50-84 | if the winning Shutdown returns true then its context had not expired and, for good, all workers have exited, no callback is running, and exactly the callbacks sent before its final empty poll have run |
| CallbackQueue.ShutdownFalse | server/utils/callbackqueue.go:62-83 | if it returns false its context has expired; so a run that has ended without that has it return true |
| CallbackQueue.GivesUpIff | server/utils/callbackqueue.go:62-83 | until it has returned the winner can answer false next if and only if its context has expired and it is still collecting tokens or draining |
| CallbackQueue.FlagRefuses | server/utils/callbackqueue.go:86-92 | once the flag is set, no Enqueue call is accepted any more |
| CallbackQueue.NothingLostIff | server/utils/callbackqueue.go:73-101 | in a run whose Shutdown returned true every accepted callback has run if and only if no Enqueue call was between its flag check and its send at the final empty poll |
| CallbackQueue.MayLoseIff | server/utils/callbackqueue.go:50-101 | a Shutdown call made now can win, return true, and leave an accepted callback that never ran, if and only if some Enqueue call has passed its flag check and not sent yet |
| CallbackQueue.LostForGood | server/utils/callbackqueue.go:50-101 | such a callback does not run in any continuation either |
| CallbackQueue.LossHappens | server/utils/callbackqueue.go:86-101 | a reachable loss for any sizes: one Enqueue call past its check, then Shutdown |
| CallbackQueue.StepRemaining | server/utils/callbackqueue.go:73-98 | once the flag is set each receive lowers the queue length plus the senders past the flag check by one, and nothing raises it |
| CallbackQueue.DrainSupply | server/utils/callbackqueue.go:73-98 | from the flag on, the number of receives is exactly the fall of that supply |
| CallbackQueue.StepRank | server/utils/callbackqueue.go:53-117 | once the flag is set every step except a new call lowers a natural-number rank |
| CallbackQueue.ShutdownProgress | server/utils/callbackqueue.go:53-117 | until the winner returns, a worker or the winner can move, whatever callers and the clock do |
| CallbackQueue.ShutdownEnds | server/utils/callbackqueue.go:53-84 | Shutdown always ends: the steps after the flag are bounded, and a run that no worker and no Shutdown step can extend has it returned |
| CallbackQueue.RepeatedShutdownMayReturnEarly | server/utils/callbackqueue.go:50-57 | "returns true if the pool exited" fails for a second Shutdown call: it can return true while a callback is running, exactly if the pool is not empty |
| CallbackQueue.StepInv | server/utils/callbackqueue.go:53-117 | each atomic step keeps the channel order, the accounting of callbacks and the shutdown protocol |
| CallbackQueue.RunInv | server/utils/callbackqueue.go:53-117 | every run keeps them |
| BlockIds.OrderReferences | server/model/blockid.go:43-53 | the IDs in an order list are its string entries and the strings in its columns |
| BlockIds.BlockReferences | server/model/blockid.go:23-69 | the references a block counts: board, parent, content and, unless the content is ill typed, the default template |
| BlockIds.CollectReferences | server/model/blockid.go:16-70 | all references are collected, and each ID is recorded with the type of the first block that carries it |
| BlockIds.DrawNewIDs | server/model/blockid.go:72-80 | exactly the block IDs that are referenced get new ones: fresh, distinct, and prefixed for the recorded type |
| BlockIds.FixFieldIDs | server/model/blockid.go:132-156 | place by place: an entry stays an ID, a column or neither, and holds the new ID of what it named, or else the same text |
| BlockIds.ReissueBlock | server/model/blockid.go:98-124 | the block gets its planned ID or a fresh one, and its links are renamed |
| BlockIds.RewriteBlocks | server/model/blockid.go:96-127 | all blocks are rewritten in place, once for each time they are listed |
| BlockIds.GenerateBlockIDs | server/model/blockid.go:10-130 | in any list every link is renamed by one injective map; an object listed once gets a fresh ID prefixed for its type, one listed again ends with an ID that nothing was planned for; without repeats each block, place by place, names the new IDs of the blocks it named |
| BlockIds.EveryBlockFollows | server/model/blockid.go:96-156 | board, parent and every place of a content list, and of its columns, hold the new ID of the block named there, or the text as it was; every place of a card order, and a default template, do for counted blocks; lists keep their lengths and the kinds of their entries |
| BlockIds.CountedIff | server/model/blockid.go:23-69 | which IDs are counted: those that some block has as its board or parent, or names in some place of its content, or as its default template unless its content is ill typed |
| BlockIds.RenamingFresh | server/model/blockid.go:72-94 | for distinct IDs the re-issuing is one injective renaming of all blocks to fresh IDs |
| BlockIds.LinksFollow | server/model/blockid.go:10-14 | board, parent and content (also in columns) commute with that renaming, and IDs of other entities are unchanged |
| BlockIds.CardOrderFollowsIff | server/model/blockid.go:107-109 | a card order commutes with the renaming if and only if every block it names is referenced through a counted link |
| BlockIds.DefaultTemplateFollowsIff | server/model/blockid.go:56-69 | a default template commutes with it if and only if its block is referenced through a counted link |
| BlockIds.DefaultTemplateCounted | server/model/blockid.go:30-69 | which its own link ensures, unless the content order is ill typed and so hides it |
| BlockIds.ShapeKept | server/model/blockid.go:10-14 | the tree keeps its shape: parent, board and content links hold between new blocks exactly where they held between the old |
| BlockIds.CardOrderKeptIff | server/model/blockid.go:107-109 | a card order names a new block if and only if it named the old one and some counted link refers to that block |
| BlockIds.DefaultTemplateKeptIff | server/model/blockid.go:111-124 | the same for a default template |
| BlockIds.RepeatedLosesLinks | server/model/blockid.go:96-127 | no block names an object that is listed more than once by its new ID |
| BoardsAndBlocks.IsValid | server/model/boards_and_blocks.go:41-61 | valid if and only if there are boards, there are blocks, and each block is under one of the boards; else the first reason |
| BoardsAndBlocks.GroupByBoard | server/model/boards_and_blocks.go:142-145 | each board ID maps to its blocks in their order |
| BoardsAndBlocks.MoveBoards | server/model/boards_and_blocks.go:147-158 | boards get fresh IDs in order, and the blocks follow board by board under the new IDs, those of the last listing for a repeated board |
| BoardsAndBlocks.HomesFollow | server/model/boards_and_blocks.go:147-158 | every new block is one of the old ones, by type and body, under the new ID of the board that one was under |
| BoardsAndBlocks.GenerateBoardsAndBlocksIDs | server/model/boards_and_blocks.go:137-166 | refused without change unless valid; otherwise new boards and blocks as above, the blocks then re-issued together, each as often as its board is listed |
| BoardsAndBlocks.RegroupNoRepeats | server/model/boards_and_blocks.go:142-158 | with distinct board IDs regrouping by board repeats no block |
| BoardsAndBlocks.InRegroup | server/model/boards_and_blocks.go:142-158 | and holds exactly the blocks whose board is listed |
| BoardsAndBlocks.RegroupTimes | server/model/boards_and_blocks.go:149-158 | each block comes out as often as its board is listed, so a repeated board ID repeats its blocks |
| BoardsAndBlocks.VisitsByBoard | server/model/boards_and_blocks.go:149-158 | and that is how often its ID is re-issued |
| BoardsAndBlocks.RepeatedBoardLosesLinks | server/model/boards_and_blocks.go:147-166 | no block names a block of a board listed more than once by its new ID |
| Members.MemberStore.MembersForBoard | server/services/store/mattermostauthlayer/mattermostauthlayer.go:1101-1142 | exactly the board's explicit members, and the implied ones who are not explicit |
| Members.MemberStore.CheckLastAdmin | server/app/boards.go:600-612 | true if and only if nobody else is an admin |
| Members.MemberStore.AddMemberToBoard | server/app/boards.go:513-556 | a stored explicit member stays as stored and is returned; otherwise the member is stored with the roles given; nothing else changes |
| Members.MemberStore.UpdateBoardMember | server/app/boards.go:558-598 | refused exactly when it would take away the last admin; else the roles are stored; nothing else changes |
| Members.MemberStore.DeleteBoardMember | server/app/boards.go:614-657 | refused exactly for the last admin; else the member is gone; every other membership and all boards stay |
| Members.ApplyKeepsAdmin | server/app/boards.go:558-657 | each operation leaves an admin on a board that has one |
| Members.RunKeepsAdmin | server/app/boards.go:513-657 | in every run of add, update and delete a board that has an admin keeps at least one |
| Members.AddsKeepMembers | server/app/boards.go:522-530 | adding never changes the roles of an explicit member |
| Members.FirstAddDecides | server/app/boards.go:513-556 | of several additions of a new member the first decides the roles |
| Lines.SplitUnlines | import/util/archive.ts:62-62 | splitting at newlines undoes writing lines, with one empty string at the end |
| Lines.ScanUnlines | server/app/import.go:159-171 | a line scanner reads back lines that hold no newline, each less a carriage return at its end; so as written if and only if none ends in one |
| Lines.ScanObjects | server/app/import.go:159-171 | it reads back the texts of JSON objects as they were written |
| ClientArchive.BuildBlockArchive | import/util/archive.ts:28-58 | the lines of the archive decode to the header with version 1 and the time, then each board, then each block, in order |
| ClientArchive.ParseBlockArchive | import/util/archive.ts:60-95 | for any text: nothing for fewer than two lines, an error for a header without a date or version, the data of the block lines in order if every line that is not empty has a type and data, and else the first line that does not, with its number among those not empty |
| ClientArchive.ArchiveRoundTrip | import/util/archive.ts:28-95 | reading back a written archive gives the same blocks in the same order if and only if it is not dated 0; an archive dated 0 is refused for its header |
| ServerArchive.WriteArchiveBoard | server/app/export.go:70-121 | the archive is the board line, the block lines and the member lines; the files are those of the image and attachment blocks; it fails if one of these names no file |
| ServerArchive.ReadArchive | server/app/import.go:166-247 | for any text: blank lines, and legacy tags before anything else, are skipped, and it is accepted if and only if every other line parses as a board, block or member with its data, where a block in first place is taken for a board; then the boards, blocks and members are those of the lines in order, each board with the importing team, boards and blocks with the author and time of the import, each block under the latest board before it; an error carries the line number of the loop |
| ServerArchive.ReadsTo | server/app/import.go:166-247 | reading told line by line: which line each board, block and member comes from, and with which fields |
| ServerArchive.FailsAt | server/app/import.go:169-246 | where reading fails: at the line after some that read well; the error is reported for line 1 whichever that is |
| ServerArchive.RemoveUnknownMembers | server/app/import.go:249-254 | the backward removal leaves the members with an account, in order |
| ServerArchive.ReadBack | server/app/import.go:166-247 | reading an exported board gives the board, every block once and in order under it, and every member in order |
| ServerArchive.OldArchive | server/app/import.go:173-220 | an archive of the old format, a tag and then blocks, reads as one board with the ID, author and time of the first block, under the importing team, with the later blocks in order under it |
| ServerArchive.CreateImported | server/app/import.go:258-296 | what was read gets new IDs and is stored, or is refused with nothing stored |
| ServerArchive.ImportBoardJSONL | server/app/import.go:151-303 | for any text: accepted if and only if it parses so and has boards and blocks, each block under a board; then every new board has the importing team, and every new board and block the author (none for the single user) and the time of the import, with body and kind as read, and the known members are added to every new board |
| ServerArchive.RegeneratedFrom | server/app/import.go:258-296 | each board and block that is stored has the body, kind, author and time of one that was read |
| ServerArchive.AddMembers | server/app/import.go:270-296 | the importing user is added as admin before the listed members |
| ServerArchive.ImportedMembers | server/app/import.go:269-296 | the importing user ends as admin, and every other listed member with the roles of the first listing |
| ServerArchive.ExportImports | server/app/export.go:70-121 | the archive of a board is accepted if and only if the board has blocks; then it makes one board, and the members with an account are added to it in order |
| ServerArchive.ExportThenImport | server/app/export.go:70-121 | importing an exported board with blocks gives one board under a fresh ID, with the importing team, author and time, and every block once, in order, under it; a parent that is no block, such as the old board, is not renamed |
| ServerArchive.ExportThenImportLinks | server/model/boards_and_blocks.go:137-166 | parents are related exactly as before; content orders, place by place, name the new ID of the block named there or keep their text; card orders and default templates do exactly where the block is named by some parent, content or counted default template |
| ServerArchive.ExportThenImportMembers | server/app/import.go:269-296 | on the board made from an archive the importing user is admin, and every other listed member has the roles of the first listing; earlier memberships stay, and all stored memberships still name IDs in use |
| Categories.App.CreateCategory | server/app/category.go:20-40 | stored as sent, a missing type as custom, with missing times filled in, while the live categories of its user and team move down by ten places and nothing else changes; refused if invalid or already stored |
| Categories.App.GetUserCategoryBoards | server/app/category_boards.go:16-51 | the stored list, preceded by creating the default category if there is none; always ends |
| Categories.App.CreateBoardsCategory | server/app/category_boards.go:53-143 | the default category is stored, behind the listed ones, with exactly the explicit boards that no live category has; an error if a membership is missing, with the category already stored |
| Categories.App.AddUpdateUserCategoryBoard | server/app/category_boards.go:145-193 | the boards are put under the category, and the category must be in the list read back |
| Categories.App.UpdateCategory | server/app/category.go:42-94 | only the owner updates a live category of the team, and type, name and deletion of a system category stay |
| Categories.App.MoveBoardsToDefaultCategory | server/app/category.go:142-191 | all boards of the source are moved to a live default category if and only if there is one or one can be made; else which error |
| Categories.App.DeleteCategory | server/app/category.go:96-140 | a category that is not deleted yet is deleted, after its boards have moved, if and only if it is a custom one of the user and team, and there is a default category or one can be made: user and team named, and a membership for each board; else the first reason |
| Categories.App.FindSourceAndDefault | server/app/category.go:150-179 | the search finds the source and a default category, which are the same if the source is named like the default |
| Categories.App.BelongsToCategory | server/app/category_boards.go:109-124 | true if and only if a live category of the user has the board |
| Categories.App.VerifyNewCategoryBoardsMatchExisting | server/app/category_boards.go:212-263 | refused if the category is not listed, else as its entry decides; for a category that was live before, an order naming each board once is accepted if and only if no two users' rows put the same board there |
| Categories.App.CheckOrder | server/app/category_boards.go:232-260 | accepted if and only if the lengths agree and every board named is in the category |
| Categories.App.Serve | server/app/category.go:20-140 | each request to create, update, delete, list or add has the effect stated for it |
| Categories.App.ServeRequests | server/app/category.go:20-140 | the requests of a client, each at its own time, run through states that are linked by these effects; a request may name an ID drawn earlier in the run |
| Categories.ScriptAsks | server/app/category.go:20-140 | any sequence of requests that name only IDs seen by then is that of such a client |
| Categories.GotReflects | server/app/category_boards.go:16-51 | the answer lists the live categories with their boards, and a default category exists |
| Categories.GotKeeps | server/app/category_boards.go:16-51 | getting the list changes no existing category except its place in the order, and no row of a categorised board |
| Categories.GotTakesIff | server/app/category_boards.go:16-143 | getting the list writes a row exactly for an explicit team board of the user that no live category has, and only when it creates the default category |
| Categories.EveryBoardPlaced | server/app/category_boards.go:67-69 | when the call creates the default category, every explicit team board ends in a live category of the user; in exactly one if and only if at most one held it before, by anyone's row; it gets a row of the user's own exactly if none held it |
| Categories.PlacedTwice | server/app/category_boards.go:109-124 | a store in which another user's row leaves a board in two categories after that call |
| Categories.SecondCallSame | server/app/category_boards.go:16-51 | an immediate second call creates nothing and lists the same categories with the same boards |
| Categories.ShownVisibleIff | server/app/category_boards.go:126-133 | the creating call shows all boards it took in as visible; this agrees with the store if and only if no hidden row was left over for one of them |
| Categories.DeleteMovesIff | server/app/category.go:142-191 | a row of the user in another category stays if and only if no other user's row puts its board in the deleted one, or it is at the target already; rows in the deleted one go to the target, other users' rows stay |
| Categories.TargetLiveIff | server/app/category.go:142-191 | the target is a live category named "Boards" afterwards if and only if the deleted one is not itself so named |
| Categories.DeleteConserves | server/app/category.go:96-191 | a categorised board is still categorised if and only if the deleted category is not named "Boards", or did not hold it, or another user's row holds it in another live category of the user |
| Categories.AddStoresAnyway | server/app/category_boards.go:145-170 | an addition stores its rows whether or not it is refused, under the category named or under a default one made on the way that takes the board in; it succeeds if and only if the categories can be listed and the one named is live and the user's |
| Categories.AddKeepsOwnIff | server/app/category_boards.go:145-170 | an addition keeps every board in its user's own categories if and only if the category named is not somebody else's live one, or a default category created on the way takes all the boards in |
| Categories.EffectKeepsOwnIff | server/app/category.go:20-140 | exactly which requests keep every board in its user's own categories |
| Categories.TraceKeepsOwn | server/app/category.go:20-140 | so every run of such requests does, each at its own time |
| Categories.DeleteMovesOwn | server/app/category.go:142-191 | then a deletion moves exactly the rows the user had in the category, and no others |
| Categories.RefusedAddMovesBoard | server/api/categories.go:384-385 | a failing run: after a refused addition to another user's category, that user's deletion of it moves a board out of a third category |
| Categories.TwoUsersMeetIt | server/api/categories.go:384-385 | a store in which that run starts |
| Categories.TwoUsersRun | server/api/categories.go:384-385 | the run from that store: the addition refused, the deletion done, the board moved |
| Categories.EffectKeepsSystem | server/app/category.go:118-120 | no request removes, renames or reassigns a system category |
| Categories.TraceKeepsSystem | server/app/category.go:20-140 | nor does any run of requests, each at its own time |
| Categories.EffectTouches | server/app/category.go:20-140 | a request changes only rows of its user, and only categories of its user and team, whose owner, team, type and creation time stay; none is removed |
| Categories.TraceLeaves | server/app/category.go:20-140 | in every run in which only others ask, a user's categories and rows stay as they are |
| Categories.App.CategoryBoardAttributes | server/services/store/sqlstore/category_boards.go:38-54 | one entry for each row that names the category, whoever's the row is |
| Categories.AcceptedOrderCompleteIff | server/app/category_boards.go:213-214 | an accepted order names all boards of the category if and only if it names as many different boards as the category lists |
| Categories.DistinctOrderCompleteIff | server/app/category_boards.go:213-214 | so, for a category that lists no board twice, if and only if it repeats none |
| Categories.DistinctOrderAcceptedIff | server/app/category_boards.go:232-260 | an order without repeats is accepted if and only if the category lists no board twice and the order names exactly its boards |
| Categories.CorrectOrderAcceptedIff | server/app/category_boards.go:212-263 | an order that names each board of a category once is accepted if and only if no two users' rows put the same board there |
| Categories.DistinctOrderRefused | server/app/category_boards.go:232-242 | otherwise every order without repeats is refused |
| Categories.OwnRowsOnce | server/app/category_boards.go:226-230 | while every board is in its user's own categories, no live category lists a board twice |
| Categories.RefusedAddBlocksOrders | server/api/categories.go:384-385 | a refused addition of a board to another user's category that has it makes every order without repeats of that category be refused |
| Categories.CorrectOrderRefused | server/api/categories.go:384-385 | such a run from a concrete store: the correct order is refused, and one that repeats the board is accepted |
| Categories.IncompleteOrderAccepted | server/app/category_boards.go:213-214 | an order that misses a board and repeats another is accepted |
| Subscriptions.LinkAgrees | server/ws/server.go:318-331 | subscribing keeps a two-way index in agreement, without repeats |
| Subscriptions.UnlinkAgrees | server/ws/server.go:376-396 | so does unsubscribing |
| Subscriptions.UnlinkEverything | server/ws/server.go:297-316 | unsubscribing from all of the client's own topics leaves it none and touches no other client |
| WsServer.Server.AddListener | server/ws/server.go:289-295 | the session is connected, subscribed to nothing |
| WsServer.Server.RemoveListener | server/ws/server.go:297-316 | the session is disconnected and in no list |
| WsServer.Server.SubscribeListenerToTeam | server/ws/server.go:318-331 | the session is listed under the team unless it already is |
| WsServer.Server.SubscribeListenerToBlocks | server/ws/server.go:346-361 | the session is listed once under each of the blocks |
| WsServer.Server.UnsubscribeListenerFromBlocks | server/ws/server.go:363-374 | the session is unlisted from the blocks it listens to |
| WsServer.Server.RemoveListenerFromTeam | server/ws/server.go:376-396 | the team loses the session and the session the team |
| WsServer.Server.HandleMessage | server/ws/server.go:150-243 | each command has its effect only if its guard allows: block commands need a valid token, team commands an authenticated session and access, and AUTH works once; what this comes to over runs is HistoryDecides |
| WsServer.Server.GetListenersForTeamAndBoard | server/ws/server.go:481-514 | each session of the team whose user is a member or ensured, exactly once; nobody if the members cannot be read |
| WsServer.DisconnectClears | server/ws/server.go:297-316 | a disconnect clears all lists of the session and of no other, and is idempotent |
| WsServer.StepKeeps | server/ws/server.go:198-460 | each event keeps sessions and indexes in agreement |
| WsServer.RunKeepsUser | server/ws/server.go:440-448 | in every run an authenticated session keeps its user |
| WsServer.EveryRunAgrees | server/ws/server.go:289-460 | in every run a session is in a list exactly once if the topic is in its own list and otherwise not at all; team listeners are authenticated and connected |
| WsServer.HistoryDecides | server/ws/server.go:150-460 | in every run the history decides: a session is known if and only if it connected; its user is the first one named, by its connection or an AUTH message; it follows a team if and only if it subscribed with access while authenticated and has neither unsubscribed nor disconnected since, and a block if and only if it subscribed with a valid token and has neither unsubscribed with one nor disconnected since |
| PluginAdapter.Adapter.AddListener | server/ws/plugin_adapter.go:104-110 | the client is registered under its connection and its user |
| PluginAdapter.Adapter.RemoveListener | server/ws/plugin_adapter.go:112-136 | the client is gone from all indexes |
| PluginAdapter.Adapter.RemoveListenerFromTeam | server/ws/plugin_adapter.go:146-158 | filtering by connection removes this client and no other |
| PluginAdapter.Adapter.RemoveExpired | server/ws/plugin_adapter.go:138-144 | the inactive stale clients of the list are removed, the others kept |
| PluginAdapter.Adapter.SubscribeListenerToTeam | server/ws/plugin_adapter.go:174-184 | listed under the team unless it already is |
| PluginAdapter.Adapter.OnWebSocketConnect | server/ws/plugin_adapter.go:273-293 | a known connection becomes active again; a new one is registered and its user's stale clients expire |
| PluginAdapter.Adapter.OnWebSocketDisconnect | server/ws/plugin_adapter.go:295-306 | the client of the connection becomes inactive and keeps its subscriptions |
| PluginAdapter.Adapter.SubscribeToTeam | server/ws/plugin_adapter.go:328-390 | a registered client with access is subscribed |
| PluginAdapter.Adapter.UnsubscribeFromTeam | server/ws/plugin_adapter.go:186-192 | and unsubscribed |
| PluginAdapter.Adapter.ActiveUsers | server/ws/plugin_adapter.go:212-218 | the users with an active client on the team |
| PluginAdapter.Adapter.GetUserIDsForTeamAndBoard | server/ws/plugin_adapter.go:212-261 | exactly the active team users who are members with access, and the ensured users; no repeats if the members have none or somebody is ensured |
| PluginAdapter.ExpiredFate | server/ws/plugin_adapter_client.go:20-26 | expiry removes exactly the inactive stale ones among the given clients |
| PluginAdapter.StepFate | server/ws/plugin_adapter.go:273-306 | a client goes only when it has been inactive for five minutes and its user opens a new connection; otherwise it keeps its subscriptions, so an earlier reconnect finds them |
| PluginAdapter.ClientFollows | server/ws/plugin_adapter.go:273-390 | a client is inactive since its disconnect, and active again from its reconnect; its teams change only by its own subscriptions with access and its unsubscriptions |
| PluginAdapter.NewClient | server/ws/plugin_adapter.go:273-293 | a client is registered exactly by a connection that is not known, as active and without subscriptions |
| PluginAdapter.StepKeeps | server/ws/plugin_adapter.go:104-306 | each event keeps all indexes in agreement with the clients |
| PluginAdapter.RunKeeps | server/ws/plugin_adapter.go:104-306 | so does every run |
| PluginAdapter.EveryRunAgrees | server/ws/plugin_adapter.go:104-306 | in every run a connection's client is listed under its own user only, and under a team exactly if the team is in its own list, never twice |
| BoardGroups.View.HideViewColumns | webapp/src/mutator.ts:924-933 | unless all are hidden already, the columns leave the visible list, whose others stay in order, and join the end of the hidden one |
| BoardGroups.View.UnhideViewColumns | webapp/src/mutator.ts:939-951 | unless all are visible already, they leave both lists, whose others stay in order, and join the end of the visible one |
| BoardGroups.View.HideViewColumn | webapp/src/mutator.ts:935-937 | from tidy lists, the column is then hidden, not visible, and the lists are tidy |
| BoardGroups.View.UnhideViewColumn | webapp/src/mutator.ts:953-955 | and the other way round |
| BoardGroups.HideTidyIff | webapp/src/mutator.ts:924-933 | hiding several columns keeps the lists repeat-free and disjoint if and only if all were hidden, or none was and none is named twice |
| BoardGroups.UnhideTidyIff | webapp/src/mutator.ts:939-951 | showing several keeps them so if and only if all were visible or none is named twice |
| BoardGroups.RunTidy | webapp/src/mutator.ts:924-955 | every run of single hides and shows keeps the lists repeat-free and disjoint and loses no column |
| BoardGroups.GroupCardsByOptions | webapp/src/boardUtils.ts:6-35 | one group for each listed option that exists, and the cards without a valid option under the empty ID |
| BoardGroups.HoldingIsListed | webapp/src/boardUtils.ts:6-35 | a card is in as many groups as its own column is listed |
| BoardGroups.ColumnsHolding | webapp/src/boardUtils.ts:37-54 | over both lists, in as many groups as the lists name its column, and in one if they do not name it |
| BoardGroups.GetOptionGroups | webapp/src/boardUtils.ts:37-54 | the groups of the visible columns, then of the unassigned options in their order, with the empty column first unless it is listed, and of the hidden ones; each group has in order the cards whose value is its option, the empty one those without an option; each card is in as many groups as its column is listed, and in one if it is not |
| BoardGroups.EveryCardOnce | webapp/src/boardUtils.ts:37-54 | from tidy lists, however columns are hidden and shown, every card is in exactly one group |
| BoardGroups.EntriesByKey | webapp/src/boardUtils.ts:64-74 | one entry for each person, with all that person's cards in order; fails if and only if a key is a name that every JavaScript object inherits |
| BoardGroups.CommasJoin | webapp/src/boardUtils.ts:64-74 | the key of a card with several persons is their IDs joined by commas |
| BoardGroups.GetPersonGroups | webapp/src/boardUtils.ts:63-88 | unless it so fails, every card is in exactly one group, and each group has in order the cards created by, last changed by, or valued as its key; it is hidden if its key is, except that the empty key stays visible |
| BoardGroups.GetVisibleAndHiddenGroups | webapp/src/boardUtils.ts:55-61 | for tidy lists and distinct options every card is in exactly one group, whichever grouping applies, unless grouping by person fails |
| TypeChange.ConvertOptions | webapp/src/mutator.ts:677-715 | the select and person loop: changed cards and their replacements in order, and the options carried over |
| TypeChange.CollectOptions | webapp/src/mutator.ts:716-738 | the loop over values: one fresh option for each different value, a list differing from all others, and the cards that now name it |
| TypeChange.ClearValues | webapp/src/mutator.ts:739-751 | the loop that deletes the values when the new type holds persons |
| TypeChange.ChangePropertyTypeAndName | webapp/src/mutator.ts:650-754 | nothing for the same type and name, a rename for the same type; else the old blocks are, in order, the cards that store a value the new type cannot keep, and each new block is the old one with only this property changed: to the ID of the option whose value is the old text, to the person or option ID it held first if that survives, as a list of one for a multi type, or to nothing; the options for texts are the different values in the order in which they come up |
| TypeChange.ValuesNameOptions | webapp/src/mutator.ts:677-738 | after a change to a select type every value a card is left with names an option of the new template |
| TypeChange.SameOptionIff | webapp/src/mutator.ts:716-738 | values to options: two cards share an option if and only if they held equal texts, so a list shares its option with no other card; option values are distinct and are exactly the values |
| TypeChange.OptionsKeptIff | webapp/src/mutator.ts:712-714 | between the two select types the options survive if and only if there is a card or there were none |
| TypeChange.ThereAndBackIff | webapp/src/mutator.ts:677-715 | select to multi-select and back restores the template, and a card if and only if it held nothing or a valid option |
| TypeChange.DeletedIff | webapp/src/mutator.ts:682-705 | which values a change of type deletes; select and person values that survive keep their first ID; other properties stay |
| CardFilter.IsFilterGroupMet | webapp/src/cardFilter.ts:37-66 | the recursion with early returns computes the meaning of the tree |
| CardFilter.ClauseMeans | webapp/src/cardFilter.ts:68-178 | what each condition means for a text, for several options and for no value: included is one of the options or the text among the values, contained, at the start or at the end is the first value in lower case, and so on; a condition without the values it needs is met |
| CardFilter.DateClauseMeans | webapp/src/cardFilter.ts:116-226 | what before, at and after mean for a date, a range, and an automatic time, which is at a date within half a day of it |
| CardFilter.UserClauseMeans | webapp/src/cardFilter.ts:73-94 | a property for who created or changed a card is judged as if the card stored that user |
| CardFilter.TitleClauseMeans | webapp/src/cardFilter.ts:70-73 | the title is judged in lower case, like a text property |
| CardFilter.FirstDecides | webapp/src/cardFilter.ts:37-66 | a group is decided by its first part that is not met, for "and", or not unmet, for "or" |
| CardFilter.KeptInOrder | webapp/src/cardFilter.ts:33-35 | exactly the cards that meet the filter are kept, in their order, unless a test fails on some card |
| CardFilter.OneOfThreeIff | webapp/src/cardFilter.ts:116-226 | a date or range, in either order, is before, at or after a given date, exactly one of the three, if and only if it is not an automatic time half a day away nor a range around the given date |
| CardFilter.ClauseNegatesIff | webapp/src/cardFilter.ts:95-178 | a paired condition and its opposite give opposite verdicts if and only if values are given where they are looked at |
| CardFilter.DualNegates | webapp/src/cardFilter.ts:37-66 | exchanging "and" with "or" and each condition with its opposite negates a tree without empty groups |
| CardFilter.DualPartitions | webapp/src/cardFilter.ts:33-35 | the two trees share out any list of cards: each card goes to exactly one, and both fail on the same lists |
| CardFilter.AllMetIff | webapp/src/cardFilter.ts:57-65 | an "and" group is met if and only if every part is |
| CardFilter.PropertiesThatMeetFilterGroup | webapp/src/cardFilter.ts:228-260 | what the first clause of an "or" group asks for, or all clauses of an "and" group |
| CardFilter.PropsAt | webapp/src/cardFilter.ts:251-259 | with distinct properties each clause's property gets the value it asks for |
| CardFilter.ChosenMeetsIff | webapp/src/cardFilter.ts:262-301 | the value chosen for a select clause meets it if and only if the clause is satisfiable: a non-empty first value, or an option with an ID |
| CardFilter.NewCardMeetsAndIff | webapp/src/cardFilter.ts:228-301 | a new card with the chosen properties meets an "and" group of select clauses on distinct properties if and only if each is satisfiable |
| CardFilter.NewCardMeetsOrIff | webapp/src/cardFilter.ts:228-301 | and an "or" group if and only if the first clause is, or another asks for nothing |
| BoardPatch.Board.ApplyPatch | server/model/board.go:266-352 | named fields are replaced, properties updated and then deleted, card properties patched in order |
| BoardPatch.PatchProperties | server/model/board.go:295-301 | updated first, then deleted |
| BoardPatch.IndexProperties | server/model/board.go:304-316 | the usable properties by ID, the last one counting, and the order of their IDs |
| BoardPatch.DeleteAll | server/model/board.go:318-321 | the deleted IDs have no property any more |
| BoardPatch.UpdateAll | server/model/board.go:323-337 | updates replace or add, and an ID without a property goes to the end of the order |
| BoardPatch.FlattenAll | server/model/board.go:339-346 | the surviving properties in the order of their IDs |
| BoardPatch.PatchedTimes | server/model/board.go:303-349 | how often each ID comes out, for any lists: an ID both deleted and updated comes out once more than it went in |
| BoardPatch.StaysDistinctIff | server/model/board.go:319-346 | distinct IDs stay distinct if and only if no existing property is both deleted and updated |
| BoardPatch.PatchedIsSimple | server/model/board.go:303-349 | then the result is the surviving properties in their order, each replaced by its last update, followed by the new ones in first-appearance order with their last value |
| BoardPatch.PatchedHolds | server/model/board.go:303-349 | for any lists, what is left: of the updates the last with each ID, and of the old properties the last with each ID that is neither deleted nor updated |
| BoardPatch.AgainChangesNothingIff | server/model/board.go:303-349 | applying a patch again changes nothing if and only if it deletes nothing that it updates |
| OctoUtils.MergeIsRightBiased | webapp/src/octoUtils.tsx:47-53 | for each ID the updated blocks decide: what is live among them, or else what was there |
| OctoUtils.MergeInOrder | webapp/src/octoUtils.tsx:47-53 | the blocks that are not updated in their order, and then the live updated ones in theirs |
| OctoUtils.MergeAgain | webapp/src/octoUtils.tsx:47-53 | merging the same list again changes nothing |
| OctoUtils.MergeThenMerge | webapp/src/octoUtils.tsx:47-53 | merging u and then v is one merge of u without the IDs in v, followed by v |
| OctoUtils.CopyBlocks | webapp/src/octoUtils.tsx:57-66 | every block is copied under a fresh ID that says its kind, recorded by old ID, with the time of the copy as both times and all else as it was |
| OctoUtils.RelinkAll | webapp/src/octoUtils.tsx:79-102 | each copy's parent, board, card order and content are renamed, in place |
| OctoUtils.DuplicateBlockTree | webapp/src/octoUtils.tsx:56-106 | the copies, which keep kind, body and deletion and have the time of the copy, the copy of the source, and the map of IDs |
| OctoUtils.RenamedToIff | webapp/src/octoUtils.tsx:57-66 | the map is injective: only a block's own ID leads to its copy |
| OctoUtils.DuplicateKeepsTree | webapp/src/octoUtils.tsx:79-89 | a copy is the parent of another exactly if the originals are so related; the source keeps its parent, outside parents stay, and boards are renamed exactly if the source is its own board |
| OctoUtils.DuplicateKeepsOrder | webapp/src/octoUtils.tsx:91-101 | content and card orders name a copy exactly where the original was named; a reference is lost if and only if its block is not duplicated |
| ContentBlocks.Rebuild | server/app/content_blocks.go:27-65 | it succeeds if and only if source and destination differ and both are in the order; else the source is not found, also when it is the destination, or else the destination |
| ContentBlocks.App.MoveContentBlock | server/app/content_blocks.go:10-81 | which error for which request; the order is stored exactly on success |
| ContentBlocks.MovePermutes | server/app/content_blocks.go:27-53 | a successful move of a repeat-free order is a permutation with the source directly beside the destination and all others in the same order |
| ContentBlocks.OthersStay | server/app/content_blocks.go:27-53 | the others stay in order even with repeats |
| ContentBlocks.PutBackIff | server/app/content_blocks.go:27-53 | moving a block beside another leaves a repeat-free order as it is if and only if it is there already |
| ContentBlocks.UndoIff | webapp/src/mutator.ts:1097-1108 | a second move of the block restores the order if and only if it goes to where the block was |
| ContentBlocks.ClientUndoIff | webapp/src/components/cardDetail/cardDetail.tsx:361-383 | the client's undo, beside the original top-level neighbour, restores the order if and only if that neighbour is a single block; beside a row it never does, whatever text is sent for it |

## Left out

- BoardsAndBlocks.GenerateBoardsAndBlocksIDs: requires distinct block objects, as decoding makes them.
- ServerArchive.ImportBoardJSONL: does not model callers' callbacks that modify or filter what was read, and an outcome is the new content rather than the new board's ID.
- TypeChange.ChangePropertyTypeAndName: lists that different cards hold are different objects, which a card's ID stands for.
- CallbackQueue.ShutdownEnds: callbacks are taken to return or panic; one that never ends keeps the pool, and then only the context ends Shutdown.
- Boards are values, so that a board changed in place through another reference is not captured; blocks, sessions, clients, views and stores are objects.
- Slices are values: aliasing between a slice and its backing array, as in the backward removal of members, is not captured.
- Order lists whose columns hold anything but strings: the source panics on them.
- The order of SQL results, and storing a new order of categories or of boards within one; store failures in the category operations; the store's tables are maps with upsert, delete and read-your-write.
- Which memberships are implied, and who manages a team, are inputs; implied memberships are taken to carry no admin rights.
- Adding a new member's board to the member's default category, and all broadcasts and notifications that follow an operation.
- The conversion of a legacy board block: only its ID, author and time matter to the import.
- A board without a map of free-form properties, on which the source's patch panics, and the defaults a client fills in when it copies a block.
- Archive lines whose data is JSON null: the source panics on a null block or member, where the model has a parse error.
- Zip files, file contents, size limits and the scanner's token limit.
- Data races on unlocked reads in the websocket code: each operation on the listeners is one atomic step.
- The plugin adapter's block index: nothing is ever added to it.
- Writing to sockets, closing them, and reconnect timing.
- Repeated deliveries by the server's block broadcast, which sends to team and block listeners in turn.
- The order of person groups: JavaScript lists integer-like keys first.
- IDs that are names every JavaScript object inherits, in the client's maps other than those of person groups.
- Invalid filter conditions and operations, which the types exclude, and dates whose JSON text is not an object.
- The undo manager and the patch helpers are not part of this model; the cards to store and the move to undo with are given to them.
- Handlers, permissions, audit, metrics, telemetry, user interface: plumbing around the parts modelled.
- Due-date buckets, password rules, link building, request validation: one-branch facts.
