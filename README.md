# D4JUtilities menus and event waiter, modelled in Dafny

D4JUtilities is a small Java library for Discord4J bots. It offers an **EventWaiter** and three interactive menus built on it, each with a builder:

- The **EventWaiter** holds a map from event class to a list of pending (condition, action) entries. When an event arrives, every satisfied entry runs its action and is removed. An entry registered with a timeout is dropped when its timer goes off, and its timeout task runs only if the entry was still pending.
- The **Paginator** shows a list of items a page at a time, in one to three columns. LEFT, STOP and RIGHT reactions move between pages or end the session.
- The **OrderedMenu** offers one to ten numbered or lettered choices. A choice is made by reaction, or by typing its number or letter.
- The **ButtonMenu** offers a reaction per choice. The choices are unicode emoji names or custom emoji ids.
- Every menu admits users through the same access rule, `isValidUser`. Bots are never admitted. Anyone is admitted when no user or role is listed. A listed user is always admitted. An unlisted user is admitted only in a guild channel, and only when holding a listed role.

## How the model is organised

- `wrappers.dfy` holds Option and Result. `host.dfy` holds the host objects of the Discord client as plain records: users with an id and a bot flag, channels with an id and flags, emojis by name, id and kind, reaction and message events, time units and colours. Callbacks supplied by users are opaque values of type `Callback`.
- `waiter.dfy` models the EventWaiter. A functional specification (`Register`, `Attempt`, `Pass`, `Dispatch`, `Expired`) sits over a class `EventWaiter`, whose methods update its fields in place and are proved equal to that specification.
  - User code enters as a `Callbacks` value. It says how each condition answers each event, and which `waitForEvent` calls each action makes while it runs. Registrations made from inside an action therefore happen during the dispatch pass, as they do in the Java code.
  - A timer going off is an explicit `Expire` call.
- `menu.dfy` holds the settings every built menu carries and both `isValidUser` overloads. `menu_builder.dfy` is the shared builder class.
- `pagination.dfy`, `ordered_menu.dfy` and `button_menu.dfy` model the built menus. A built menu is an immutable value, since the Java fields are final.
  - Their host interaction is a log of operations (`Op`) in the order they are issued: send, edit, add or remove a reaction, delete, register with the waiter (`Await`), and run a callback.
  - The Java loops stay methods with loop invariants (`RenderPage`, `GetNumber`, `GetMessage`, both `Initialize`). Each is proved equal to a specification function, and the properties are lemmas about those functions.
- `paginator_builder.dfy`, `ordered_menu_builder.dfy` and `button_menu_builder.dfy` are builder classes. Each one's setters update its fields and return the builder itself. Each holds a `MenuBuilder` for the shared settings, since the Java builders inherit them.

Where the code and its documentation differ, the model follows the code. Two examples:
- An OrderedMenu accepts the CANCEL reaction even when no cancel button was offered.
- A typed single space selects choice 0.

## Model

| member | source | states |
|---|---|---|
| Waiter.Untimed | src/main/java/me/xaanit/d4jutilities/waiter/EventWaiter.java:58-60 | the three-argument waitForEvent passes timeout -1, no unit and no timeout task, so it never arms a timer |
| Waiter.Register | src/main/java/me/xaanit/d4jutilities/waiter/EventWaiter.java:83-98 | one waitForEvent call appends a fresh entry at the end of its class's bucket, creating the bucket when it is absent; every other bucket is unchanged; a timer is added iff timeout > 0 and the unit is non-null; nothing runs |
| Waiter.RegisterKeepsConsistent | src/main/java/me/xaanit/d4jutilities/waiter/EventWaiter.java:90-91 | registration keeps every bucket free of repeated entries and only extends the state; the new entry is pending nowhere before |
| Waiter.RegisterAll | src/main/java/me/xaanit/d4jutilities/waiter/EventWaiter.java:82-99 | the registrations an action makes, in order, add exactly one identity each and run nothing |
| Waiter.RanAll | src/main/java/me/xaanit/d4jutilities/waiter/EventWaiter.java:125-131 | the record of running the actions of a list of entries: one run per entry, in order |
| Waiter.Attempt | src/main/java/me/xaanit/d4jutilities/waiter/EventWaiter.java:125-131 | attempt answers the condition's result; the action runs (one log entry) iff the result is true; otherwise nothing changes |
| Waiter.AttemptAll | src/main/java/me/xaanit/d4jutilities/waiter/EventWaiter.java:109-110 | attempting a snapshot in order never removes a bucket |
| Waiter.RemoveAll | src/main/java/me/xaanit/d4jutilities/waiter/EventWaiter.java:110 | list.removeAll keeps exactly the entries not in the removed list |
| Waiter.Pass | src/main/java/me/xaanit/d4jutilities/waiter/EventWaiter.java:107-111 | definition; what it states is proved by Waiter.PassBucket and Waiter.PassKeepsConsistent |
| Waiter.PassAll | src/main/java/me/xaanit/d4jutilities/waiter/EventWaiter.java:105-113 | definition; what it states is proved by Waiter.PassAllSpares and Waiter.PassAllKeepsConsistent |
| Waiter.Dispatch | src/main/java/me/xaanit/d4jutilities/waiter/EventWaiter.java:104-114 | definition; what it states is proved by Waiter.DispatchSparesRoot and Waiter.PassAllKeepsConsistent |
| Waiter.PassKeepsConsistent | src/main/java/me/xaanit/d4jutilities/waiter/EventWaiter.java:107-111 | one class's pass keeps the bucket invariant |
| Waiter.PassAllKeepsConsistent | src/main/java/me/xaanit/d4jutilities/waiter/EventWaiter.java:105-113 | the whole walk up the class chain keeps the bucket invariant |
| Waiter.RemoveFirst | src/main/java/me/xaanit/d4jutilities/waiter/EventWaiter.java:94 | definition; what it states is proved by Waiter.ExpiredEffect (only the entry is removed, and only when present) |
| Waiter.Expired | src/main/java/me/xaanit/d4jutilities/waiter/EventWaiter.java:93-97 | definition; what it states is proved by Waiter.ExpiredEffect, Waiter.ExpiredKeepsConsistent and Waiter.ExpireTwiceIsNoOp |
| Waiter.FirstIndex | src/main/java/me/xaanit/d4jutilities/waiter/EventWaiter.java:94 | the position list.remove finds is the first occurrence of the entry |
| Waiter.ExpiredKeepsConsistent | src/main/java/me/xaanit/d4jutilities/waiter/EventWaiter.java:93-97 | expiry keeps the bucket invariant |
| Waiter.AttemptAllRunsSatisfied | src/main/java/me/xaanit/d4jutilities/waiter/EventWaiter.java:108-110 | the stream over a snapshot collects exactly the satisfied entries in order, and runs exactly their actions, once each, in order |
| Waiter.PassBucket | src/main/java/me/xaanit/d4jutilities/waiter/EventWaiter.java:107-111 | after handle's pass over a bucket, the bucket holds the unsatisfied snapshot entries in their order, followed by every entry the actions registered on it during the pass, in order; those are newer than the pass and were neither attempted nor removed; the log gains one run per satisfied entry |
| Waiter.PassAllSpares | src/main/java/me/xaanit/d4jutilities/waiter/EventWaiter.java:105-113 | buckets of classes the walk does not visit (the root class among them) lose no entry |
| Waiter.DispatchSparesRoot | src/main/java/me/xaanit/d4jutilities/waiter/EventWaiter.java:105-113 | handle walks the chain only while a class has a superclass, so it never visits the root class: no entry waiting on the root class is consumed |
| Waiter.ExpiredEffect | src/main/java/me/xaanit/d4jutilities/waiter/EventWaiter.java:94-96 | if the entry is still pending, expiry removes it and only it, keeps other buckets, and runs the timeout task iff there is one; otherwise expiry changes nothing |
| Waiter.ExpireTwiceIsNoOp | src/main/java/me/xaanit/d4jutilities/waiter/EventWaiter.java:94-96 | expiring an entry that is already gone is a no-op, so a timer fires its task at most once |
| Waiter.EventWaiter.constructor | src/main/java/me/xaanit/d4jutilities/waiter/EventWaiter.java:38-44 | a new waiter has no buckets, timers or runs |
| Waiter.EventWaiter.WaitForEvent | src/main/java/me/xaanit/d4jutilities/waiter/EventWaiter.java:58-60 | the three-argument overload registers exactly as Register does with Untimed arguments, and arms no timer |
| Waiter.EventWaiter.WaitForEventTimed | src/main/java/me/xaanit/d4jutilities/waiter/EventWaiter.java:82-99 | the object's new state is Register of its old state |
| Waiter.EventWaiter.Handle | src/main/java/me/xaanit/d4jutilities/waiter/EventWaiter.java:104-114 | the object's new state is Dispatch of its old state: the walk over the class chain, root excluded |
| Waiter.EventWaiter.HandleBucket | src/main/java/me/xaanit/d4jutilities/waiter/EventWaiter.java:107-111 | one loop iteration: snapshot, attempt each entry in order, then removeAll of the satisfied ones; the new state is Pass of the old |
| Waiter.EventWaiter.RunAction | src/main/java/me/xaanit/d4jutilities/waiter/EventWaiter.java:127 | an action running performs its registrations in order; the new state is RegisterAll of the old |
| Waiter.EventWaiter.Expire | src/main/java/me/xaanit/d4jutilities/waiter/EventWaiter.java:93-97 | a timer going off; the new state is Expired of the old |
| Menus.AnyListed | src/main/java/me/xaanit/d4jutilities/menu/Menu.java:68 | anyMatch: true iff some guild role of the user is a listed role |
| Menus.IsValidReactor | src/main/java/me/xaanit/d4jutilities/menu/Menu.java:55-69 | definition; what it states is proved by Menus.ReactorAdmitted and Menus.AccessRules |
| Menus.IsValidAuthor | src/main/java/me/xaanit/d4jutilities/menu/Menu.java:71-85 | definition; what it states is proved by Menus.AuthorAdmitted and Menus.OverloadsAgree |
| Menus.ReactorAdmitted | src/main/java/me/xaanit/d4jutilities/menu/Menu.java:55-69 | the reaction overload of isValidUser decides exactly as Admits: not a bot, and nobody listed, or the user listed, or a listed role held in a guild channel |
| Menus.AuthorAdmitted | src/main/java/me/xaanit/d4jutilities/menu/Menu.java:71-85 | the message overload decides exactly as Admits |
| Menus.OverloadsAgree | src/main/java/me/xaanit/d4jutilities/menu/Menu.java:55-85 | both overloads give the same answer for the same user, channel kind and guild roles |
| Menus.AccessRules | src/main/java/me/xaanit/d4jutilities/menu/Menu.java:56-68 | bots are rejected; with no users and no roles listed every non-bot is admitted; a listed user is admitted in any channel; an unlisted user outside a guild channel is rejected; otherwise admission holds iff some guild role is listed |
| MenuBuilders.MenuBuilder.constructor | src/main/java/me/xaanit/d4jutilities/menu/MenuBuilder.java:18-22 | defaults: no waiter, no users, no roles, timeout -1, unit MINUTES |
| MenuBuilders.MenuBuilder.SetEventWaiter | src/main/java/me/xaanit/d4jutilities/menu/MenuBuilder.java:54-57 | stores the waiter, changes nothing else, returns the same builder |
| MenuBuilders.MenuBuilder.AddUsers | src/main/java/me/xaanit/d4jutilities/menu/MenuBuilder.java:67-70 | the given users join the allowed set; nothing else changes |
| MenuBuilders.MenuBuilder.SetUsers | src/main/java/me/xaanit/d4jutilities/menu/MenuBuilder.java:81-85 | the allowed users become exactly the given ones; nothing else changes |
| MenuBuilders.MenuBuilder.AddRoles | src/main/java/me/xaanit/d4jutilities/menu/MenuBuilder.java:95-98 | the given roles join the allowed set; nothing else changes |
| MenuBuilders.MenuBuilder.SetRoles | src/main/java/me/xaanit/d4jutilities/menu/MenuBuilder.java:109-113 | the allowed roles become exactly the given ones; nothing else changes |
| MenuBuilders.MenuBuilder.SetTimeout | src/main/java/me/xaanit/d4jutilities/menu/MenuBuilder.java:127-131 | stores both timeout and unit and changes nothing else |
| Pagination.Pages | src/main/java/me/xaanit/d4jutilities/menu/pagination/Paginator.java:59 | definition; what it states is proved by Pagination.CeilDivIsCeiling and Pagination.PagesPositive |
| Pagination.CeilDivIsCeiling | src/main/java/me/xaanit/d4jutilities/menu/pagination/Paginator.java:59 | the integer page count q is the ceiling of n/d: q*d >= n > (q-1)*d, and q >= 1 iff n > 0 |
| Pagination.PagesPositive | src/main/java/me/xaanit/d4jutilities/menu/pagination/Paginator.java:59 | there is at least one page iff there is at least one item |
| Pagination.PageStart | src/main/java/me/xaanit/d4jutilities/menu/pagination/Paginator.java:187 | definition; what it states is proved by Pagination.PageBounds and Pagination.PagesCoverItems |
| Pagination.PageEnd | src/main/java/me/xaanit/d4jutilities/menu/pagination/Paginator.java:188 | definition; what it states is proved by Pagination.PageBounds and Pagination.PagesCoverItems |
| Pagination.PageBounds | src/main/java/me/xaanit/d4jutilities/menu/pagination/Paginator.java:187-188 | every page in [1, pages] starts at a valid item, is non-empty, holds at most itemsPerPage items, and the last page ends at the last item |
| Pagination.PagesCoverItems | src/main/java/me/xaanit/d4jutilities/menu/pagination/Paginator.java:187-188 | item i lies on page i / itemsPerPage + 1, which is in range, and on no other page |
| Pagination.Decimal | src/main/java/me/xaanit/d4jutilities/menu/pagination/Paginator.java:193 | Integer.toString writes a non-empty string of decimal digits |
| Pagination.DecimalValue | src/main/java/me/xaanit/d4jutilities/menu/pagination/Paginator.java:193 | the digits Integer.toString writes denote the number itself, with no leading zero, so the string starts with 0 only for 0; the item labels and the page footer show the right numbers |
| Pagination.ColumnFields | src/main/java/me/xaanit/d4jutilities/menu/pagination/Paginator.java:199-206 | one inline field per column |
| Pagination.AppendLines | src/main/java/me/xaanit/d4jutilities/menu/pagination/Paginator.java:192-194 | the StringBuilder loop appends the lines of items lo up to min(end, limit) |
| Pagination.RenderFields | src/main/java/me/xaanit/d4jutilities/menu/pagination/Paginator.java:198-206 | the nested loops build exactly the column fields of the specification |
| Pagination.RenderPage | src/main/java/me/xaanit/d4jutilities/menu/pagination/Paginator.java:184-218 | renderPage builds exactly the specified page: lines or column fields, colour, footer, content |
| Pagination.Bulleted | src/main/java/me/xaanit/d4jutilities/menu/pagination/Paginator.java:192-194 | the items each on a new line; empty iff there are no items |
| Pagination.Label | src/main/java/me/xaanit/d4jutilities/menu/pagination/Paginator.java:193 | definition; what it states is proved by Pagination.LinesNumbered and Pagination.DecimalValue |
| Pagination.Line | src/main/java/me/xaanit/d4jutilities/menu/pagination/Paginator.java:193 | definition; what it states is proved by Pagination.LinesNumbered |
| Pagination.Lines | src/main/java/me/xaanit/d4jutilities/menu/pagination/Paginator.java:192-194 | definition; what it states is proved by Pagination.LinesAreSlice, Pagination.LinesNumbered and Pagination.LinesEmpty |
| Pagination.LinesAreSlice | src/main/java/me/xaanit/d4jutilities/menu/pagination/Paginator.java:187-195 | without numbering, page p shows exactly items[(p-1)*ipp .. min(size, p*ipp)) in order, each on its own line |
| Pagination.LinesNumbered | src/main/java/me/xaanit/d4jutilities/menu/pagination/Paginator.java:192-194 | the lines of a range are those of the items before item k, then item k's line, then those after it; with numbering on, item k is labelled k+1 counted across pages (in backquotes in the description, plain in a field), and those digits denote k+1 |
| Pagination.LinesEmpty | src/main/java/me/xaanit/d4jutilities/menu/pagination/Paginator.java:192-194 | the text of a range is empty iff the range is, and otherwise starts with a newline |
| Pagination.ColumnsCoverPage | src/main/java/me/xaanit/d4jutilities/menu/pagination/Paginator.java:198-206 | the columns, joined in order, are exactly the page's lines; each column ends where the next starts, so none overlap; every item of the page is in column (i - start) / per, and that column exists |
| Pagination.ColumnFieldValue | src/main/java/me/xaanit/d4jutilities/menu/pagination/Paginator.java:204-205 | a column field has a zero-width-space name and is inline; its value is a zero-width space iff the column is empty, and otherwise the column's text |
| Pagination.Render | src/main/java/me/xaanit/d4jutilities/menu/pagination/Paginator.java:184-218 | definition; what it states is proved by Pagination.RenderShows, Pagination.ColumnsCoverPage and Pagination.LinesAreSlice |
| Pagination.RenderShows | src/main/java/me/xaanit/d4jutilities/menu/pagination/Paginator.java:189-216 | one column gives the description and no fields; more columns give no description and one field each; the footer "Page p/pages" appears iff showPageNumbers; the content is present iff text is set |
| Pagination.Initialize | src/main/java/me/xaanit/d4jutilities/menu/pagination/Paginator.java:126-138 | definition; what it states is proved by Pagination.InitializeOutcome |
| Pagination.InitializeOutcome | src/main/java/me/xaanit/d4jutilities/menu/pagination/Paginator.java:126-138 | with more than one page, LEFT, STOP and RIGHT are added and the paginator waits; with one page and waitOnSinglePage, only STOP is added and it waits; otherwise only the final action runs; the registration is on that message, with the final action as its timeout task |
| Pagination.Accepts | src/main/java/me/xaanit/d4jutilities/menu/pagination/Paginator.java:140-150 | definition; what it states is proved by Pagination.AcceptsExactly |
| Pagination.AcceptsExactly | src/main/java/me/xaanit/d4jutilities/menu/pagination/Paginator.java:140-150 | a reaction is accepted iff it is on the paginator's message, is LEFT, STOP or RIGHT, and comes from an admitted user |
| Pagination.NextPage | src/main/java/me/xaanit/d4jutilities/menu/pagination/Paginator.java:152-163 | definition; what it states is proved by Pagination.NavigationInRange and Pagination.NavigationUndo |
| Pagination.NavigationInRange | src/main/java/me/xaanit/d4jutilities/menu/pagination/Paginator.java:152-163 | LEFT decrements only above page 1, RIGHT increments only below the last page; the page stays in [1, pages] |
| Pagination.NavigationUndo | src/main/java/me/xaanit/d4jutilities/menu/pagination/Paginator.java:152-163 | away from the edges, RIGHT then LEFT, or LEFT then RIGHT, returns to the same page |
| Pagination.React | src/main/java/me/xaanit/d4jutilities/menu/pagination/Paginator.java:151-181 | definition; what it states is proved by Pagination.ReactOutcome |
| Pagination.ReactOutcome | src/main/java/me/xaanit/d4jutilities/menu/pagination/Paginator.java:151-181 | STOP runs only the final action and does not register again; LEFT/RIGHT re-render the new page, which is in range, edit the message, and register once more, last; that registration has the final action as its timeout task |
| Pagination.BrowseInRange | src/main/java/me/xaanit/d4jutilities/menu/pagination/Paginator.java:152-180 | any sequence of reactions keeps the page in [1, pages] |
| Pagination.Paginate | src/main/java/me/xaanit/d4jutilities/menu/pagination/Paginator.java:94-124 | the requested page is clamped into [1, pages] (unchanged inside it); the page is sent or edited in, then initialize runs on it |
| Pagination.Display | src/main/java/me/xaanit/d4jutilities/menu/pagination/Paginator.java:71-84 | display starts on page 1, which exists |
| PaginatorBuilders.PaginatorBuilder.constructor | src/main/java/me/xaanit/d4jutilities/menu/pagination/PaginatorBuilder.java:21-31 | defaults: no colour, empty text, delete the message when done, 1 column, 12 items per page, page numbers shown, items not numbered, no waiting on a single page, no items |
| PaginatorBuilders.PaginatorBuilder.SetColor | src/main/java/me/xaanit/d4jutilities/menu/pagination/PaginatorBuilder.java:57-60 | the colour becomes a function constant in (page, pages); nothing else changes |
| PaginatorBuilders.PaginatorBuilder.SetColorFunction | src/main/java/me/xaanit/d4jutilities/menu/pagination/PaginatorBuilder.java:74-77 | stores the colour function; nothing else changes |
| PaginatorBuilders.PaginatorBuilder.SetText | src/main/java/me/xaanit/d4jutilities/menu/pagination/PaginatorBuilder.java:89-92 | the text becomes a function constant in (page, pages); nothing else changes |
| PaginatorBuilders.PaginatorBuilder.SetTextFunction | src/main/java/me/xaanit/d4jutilities/menu/pagination/PaginatorBuilder.java:105-108 | stores the text function, possibly none; nothing else changes |
| PaginatorBuilders.PaginatorBuilder.SetFinalAction | src/main/java/me/xaanit/d4jutilities/menu/pagination/PaginatorBuilder.java:118-121 | stores the final action; nothing else changes |
| PaginatorBuilders.PaginatorBuilder.SetColumns | src/main/java/me/xaanit/d4jutilities/menu/pagination/PaginatorBuilder.java:131-137 | values outside 1..3 are refused with the source's message and change nothing; others are stored |
| PaginatorBuilders.PaginatorBuilder.SetItemsPerPage | src/main/java/me/xaanit/d4jutilities/menu/pagination/PaginatorBuilder.java:148-154 | values below 1 are refused with the source's message and change nothing, so the page-count division is never by zero |
| PaginatorBuilders.PaginatorBuilder.ShowPageNumbers | src/main/java/me/xaanit/d4jutilities/menu/pagination/PaginatorBuilder.java:163-166 | stores the flag; nothing else changes |
| PaginatorBuilders.PaginatorBuilder.UseNumberedItems | src/main/java/me/xaanit/d4jutilities/menu/pagination/PaginatorBuilder.java:175-178 | stores the flag; nothing else changes |
| PaginatorBuilders.PaginatorBuilder.WaitOnSinglePage | src/main/java/me/xaanit/d4jutilities/menu/pagination/PaginatorBuilder.java:189-192 | stores the flag; nothing else changes |
| PaginatorBuilders.PaginatorBuilder.ClearItems | src/main/java/me/xaanit/d4jutilities/menu/pagination/PaginatorBuilder.java:199-202 | the item list becomes empty |
| PaginatorBuilders.PaginatorBuilder.AddItems | src/main/java/me/xaanit/d4jutilities/menu/pagination/PaginatorBuilder.java:211-214 | the items are appended in order |
| PaginatorBuilders.PaginatorBuilder.SetItems | src/main/java/me/xaanit/d4jutilities/menu/pagination/PaginatorBuilder.java:224-228 | the item list becomes exactly the given items |
| PaginatorBuilders.PaginatorBuilder.SetClient | src/main/java/me/xaanit/d4jutilities/menu/pagination/PaginatorBuilder.java:237-240 | stores the client; nothing else changes |
| PaginatorBuilders.PaginatorBuilder.Build | src/main/java/me/xaanit/d4jutilities/menu/pagination/PaginatorBuilder.java:34-46 | refuses a missing waiter, then empty items, then a missing client, in that order, with the source's messages; otherwise the Paginator carries every setting and has at least one page |
| OrderedMenus.Table | src/main/java/me/xaanit/d4jutilities/menu/orderedmenu/OrderedMenu.java:38-42 | each emoji table has ten entries |
| OrderedMenus.FirstIndex | src/main/java/me/xaanit/d4jutilities/menu/orderedmenu/OrderedMenu.java:226-229 | indexOf: -1 iff absent, otherwise the position of the first occurrence |
| OrderedMenus.TableDistinct | src/main/java/me/xaanit/d4jutilities/menu/orderedmenu/OrderedMenu.java:38-42 | the ten emojis of each table are pairwise different |
| OrderedMenus.NumberOf | src/main/java/me/xaanit/d4jutilities/menu/orderedmenu/OrderedMenu.java:214-222 | -1 iff the emoji is not in the active table; otherwise a number n in 1..10 with getEmoji(n) equal to the emoji |
| OrderedMenus.GetEmoji | src/main/java/me/xaanit/d4jutilities/menu/orderedmenu/OrderedMenu.java:206-212 | definition; what it states is proved by OrderedMenus.NumberOfGetEmoji |
| OrderedMenus.NumberOfGetEmoji | src/main/java/me/xaanit/d4jutilities/menu/orderedmenu/OrderedMenu.java:206-222 | getNumber(getEmoji(n)) == n for every n in 1..10, in both tables |
| OrderedMenus.GetNumber | src/main/java/me/xaanit/d4jutilities/menu/orderedmenu/OrderedMenu.java:214-222 | the linear search returns exactly NumberOf |
| OrderedMenus.TypedNumber | src/main/java/me/xaanit/d4jutilities/menu/orderedmenu/OrderedMenu.java:224-233 | definition; what it states is proved by OrderedMenus.TypedLetters and OrderedMenus.TypedDigits |
| OrderedMenus.TypedLetters | src/main/java/me/xaanit/d4jutilities/menu/orderedmenu/OrderedMenu.java:225-226 | in letter mode, the n-th letter in either case gives n and nothing else does; " " gives 0 and nothing else does; every answer is in -1..10 |
| OrderedMenus.TypedDigits | src/main/java/me/xaanit/d4jutilities/menu/orderedmenu/OrderedMenu.java:227-231 | in number mode, the numeral of n (and "10") gives n and nothing else does; " " gives 0 and nothing else does; every answer is in -1..10 |
| OrderedMenus.IsValidReaction | src/main/java/me/xaanit/d4jutilities/menu/orderedmenu/OrderedMenu.java:185-197 | definition; what it states is proved by OrderedMenus.ValidReactionExactly |
| OrderedMenus.ValidReactionExactly | src/main/java/me/xaanit/d4jutilities/menu/orderedmenu/OrderedMenu.java:185-197 | a reaction is valid iff it is on the menu's message, comes from an admitted user, and is CANCEL or the emoji of one of the menu's choices |
| OrderedMenus.IsValidTyped | src/main/java/me/xaanit/d4jutilities/menu/orderedmenu/OrderedMenu.java:199-204 | definition; what it states is proved by OrderedMenus.TypedExactly |
| OrderedMenus.TypedExactly | src/main/java/me/xaanit/d4jutilities/menu/orderedmenu/OrderedMenu.java:199-204 | a typed message is accepted iff it is in the menu's channel and its author is admitted by the access rule |
| OrderedMenus.ReactionOutcome | src/main/java/me/xaanit/d4jutilities/menu/orderedmenu/OrderedMenu.java:140-144 | definition; what it states is proved by OrderedMenus.AcceptedReactionOutcome |
| OrderedMenus.TypedOutcome | src/main/java/me/xaanit/d4jutilities/menu/orderedmenu/OrderedMenu.java:147-152 | definition; what it states is proved by OrderedMenus.TypedOutcomeRange |
| OrderedMenus.AcceptedReactionOutcome | src/main/java/me/xaanit/d4jutilities/menu/orderedmenu/OrderedMenu.java:138-144 | an accepted reaction cancels iff it is CANCEL; otherwise it selects the choice whose emoji it is, a number in [1, choices] |
| OrderedMenus.TypedOutcomeRange | src/main/java/me/xaanit/d4jutilities/menu/orderedmenu/OrderedMenu.java:145-152 | a typed selection outside [0, choices] cancels; the action gets 0 iff the text is " ", and n iff the text spells n |
| OrderedMenus.GetMessage | src/main/java/me/xaanit/d4jutilities/menu/orderedmenu/OrderedMenu.java:170-183 | the loop builds exactly the specified message |
| OrderedMenus.Message | src/main/java/me/xaanit/d4jutilities/menu/orderedmenu/OrderedMenu.java:170-183 | definition; what it states is proved by OrderedMenus.MessageListsChoices |
| OrderedMenus.MessageListsChoices | src/main/java/me/xaanit/d4jutilities/menu/orderedmenu/OrderedMenu.java:175-180 | the embed lists, for each choice i in order, "\n" + getEmoji(i+1) + " " + choice i, after the description when there is one |
| OrderedMenus.Reactions | src/main/java/me/xaanit/d4jutilities/menu/orderedmenu/OrderedMenu.java:99-102 | one reaction per emoji, in order |
| OrderedMenus.Initialize | src/main/java/me/xaanit/d4jutilities/menu/orderedmenu/OrderedMenu.java:97-117 | the loop issues exactly the specified operations |
| OrderedMenus.InitializeOrder | src/main/java/me/xaanit/d4jutilities/menu/orderedmenu/OrderedMenu.java:99-116 | the reactions are getEmoji(1..size) in order, then CANCEL iff useCancel, then one registration, generic iff typed input is allowed |
| OrderedMenus.Respond | src/main/java/me/xaanit/d4jutilities/menu/orderedmenu/OrderedMenu.java:136-166 | definition; what it states is proved by OrderedMenus.RespondOutcome |
| OrderedMenus.Accepts | src/main/java/me/xaanit/d4jutilities/menu/orderedmenu/OrderedMenu.java:127-160 | definition; what it states is proved by OrderedMenus.AcceptsByKind, OrderedMenus.ValidReactionExactly, OrderedMenus.TypedExactly and OrderedMenus.RespondOutcome |
| OrderedMenus.AcceptsByKind | src/main/java/me/xaanit/d4jutilities/menu/orderedmenu/OrderedMenu.java:127-160 | the reaction-only registration accepts exactly the valid reactions and never a typed message; the generic one accepts valid reactions and, in addition, valid typed messages; neither accepts any other event |
| OrderedMenus.RespondOutcome | src/main/java/me/xaanit/d4jutilities/menu/orderedmenu/OrderedMenu.java:136-166 | every accepted event deletes the menu and then runs exactly one of the action or cancel; the action gets a number in [0, choices], and in [1, choices] from a reaction |
| OrderedMenus.PermissionCheck | src/main/java/me/xaanit/d4jutilities/menu/orderedmenu/OrderedMenu.java:69-73 | definition; what it states is proved by OrderedMenus.DisplayIn and OrderedMenus.DisplayOver |
| OrderedMenus.DisplayIn | src/main/java/me/xaanit/d4jutilities/menu/orderedmenu/OrderedMenu.java:67-75 | fails with missing permissions iff the channel is not private, typed input is off and reactions cannot be added; otherwise sends the menu and initializes it |
| OrderedMenus.DisplayOver | src/main/java/me/xaanit/d4jutilities/menu/orderedmenu/OrderedMenu.java:83-95 | the same permission check; otherwise edits the message into the menu and initializes it |
| OrderedMenuBuilders.OrderedMenuBuilder.constructor | src/main/java/me/xaanit/d4jutilities/menu/orderedmenu/OrderedMenuBuilder.java:18-27 | defaults: numbers, typed input allowed, no cancel button, a no-op cancel, nothing else set |
| OrderedMenuBuilders.OrderedMenuBuilder.SetColor | src/main/java/me/xaanit/d4jutilities/menu/orderedmenu/OrderedMenuBuilder.java:62-65 | stores the colour; nothing else changes |
| OrderedMenuBuilders.OrderedMenuBuilder.UseLetters | src/main/java/me/xaanit/d4jutilities/menu/orderedmenu/OrderedMenuBuilder.java:74-77 | letters are used whatever was set before, so calling it twice is the same as once |
| OrderedMenuBuilders.OrderedMenuBuilder.UseNumbers | src/main/java/me/xaanit/d4jutilities/menu/orderedmenu/OrderedMenuBuilder.java:85-88 | numbers are used whatever was set before, so calling it twice is the same as once |
| OrderedMenuBuilders.OrderedMenuBuilder.AllowTextInput | src/main/java/me/xaanit/d4jutilities/menu/orderedmenu/OrderedMenuBuilder.java:98-101 | stores the flag; nothing else changes |
| OrderedMenuBuilders.OrderedMenuBuilder.UseCancelButton | src/main/java/me/xaanit/d4jutilities/menu/orderedmenu/OrderedMenuBuilder.java:110-113 | stores the flag; nothing else changes |
| OrderedMenuBuilders.OrderedMenuBuilder.SetText | src/main/java/me/xaanit/d4jutilities/menu/orderedmenu/OrderedMenuBuilder.java:125-128 | stores the text; nothing else changes |
| OrderedMenuBuilders.OrderedMenuBuilder.SetDescription | src/main/java/me/xaanit/d4jutilities/menu/orderedmenu/OrderedMenuBuilder.java:138-141 | stores the description; nothing else changes |
| OrderedMenuBuilders.OrderedMenuBuilder.SetAction | src/main/java/me/xaanit/d4jutilities/menu/orderedmenu/OrderedMenuBuilder.java:150-153 | stores the action; nothing else changes |
| OrderedMenuBuilders.OrderedMenuBuilder.SetCancel | src/main/java/me/xaanit/d4jutilities/menu/orderedmenu/OrderedMenuBuilder.java:163-166 | stores the cancel callback; nothing else changes |
| OrderedMenuBuilders.OrderedMenuBuilder.AddChoices | src/main/java/me/xaanit/d4jutilities/menu/orderedmenu/OrderedMenuBuilder.java:176-179 | the choices are appended in order |
| OrderedMenuBuilders.OrderedMenuBuilder.SetChoices | src/main/java/me/xaanit/d4jutilities/menu/orderedmenu/OrderedMenuBuilder.java:189-193 | the choice list becomes exactly the given choices |
| OrderedMenuBuilders.OrderedMenuBuilder.SetClient | src/main/java/me/xaanit/d4jutilities/menu/orderedmenu/OrderedMenuBuilder.java:202-205 | stores the client; nothing else changes |
| OrderedMenuBuilders.OrderedMenuBuilder.Build | src/main/java/me/xaanit/d4jutilities/menu/orderedmenu/OrderedMenuBuilder.java:30-51 | refuses, in order, no waiter, no choices, more than ten, no action, neither text nor description, no client, with the source's messages; it succeeds iff none applies, and then the menu carries every setting and has 1..10 choices |
| OrderedMenuBuilders.BuiltMenuInRange | src/main/java/me/xaanit/d4jutilities/menu/orderedmenu/OrderedMenuBuilder.java:34-39 | every choice number of a built menu indexes the emoji table in range, and its emoji maps back to it |
| ButtonMenus.Accepts | src/main/java/me/xaanit/d4jutilities/menu/buttonmenu/ButtonMenu.java:82-94 | definition; what it states is proved by ButtonMenus.AcceptsExactly |
| ButtonMenus.ReactionKey | src/main/java/me/xaanit/d4jutilities/menu/buttonmenu/ButtonMenu.java:88-90 | definition; what it states is proved by ButtonMenus.AcceptsExactly and ButtonMenus.AcceptedResponse |
| ButtonMenus.AcceptsExactly | src/main/java/me/xaanit/d4jutilities/menu/buttonmenu/ButtonMenu.java:82-94 | a reaction is accepted iff it is on the menu's message, its key is one of the choices (the name of a unicode emoji, the id of a custom one), and it comes from an admitted user |
| ButtonMenus.Respond | src/main/java/me/xaanit/d4jutilities/menu/buttonmenu/ButtonMenu.java:95-98 | definition; what it states is proved by ButtonMenus.AcceptedResponse |
| ButtonMenus.AcceptedResponse | src/main/java/me/xaanit/d4jutilities/menu/buttonmenu/ButtonMenu.java:95-98 | on accept, the message is deleted and then the action gets the emoji reacted with; nothing registers again |
| ButtonMenus.Message | src/main/java/me/xaanit/d4jutilities/menu/buttonmenu/ButtonMenu.java:104-114 | definition; what it states is proved by ButtonMenus.MessageShowsSomething |
| ButtonMenus.MessageShowsSomething | src/main/java/me/xaanit/d4jutilities/menu/buttonmenu/ButtonMenu.java:104-114 | content is set iff text is; the embed, with the description, iff a description is; a built menu always shows one of them |
| ButtonMenus.ReactionFor | src/main/java/me/xaanit/d4jutilities/menu/buttonmenu/ButtonMenu.java:68-77 | definition; what it states is proved by ButtonMenus.ChoiceReactions and ButtonMenus.InitializeOrder (the custom-emoji lookup is an input; see Left out) |
| ButtonMenus.ChoiceReactions | src/main/java/me/xaanit/d4jutilities/menu/buttonmenu/ButtonMenu.java:77-79 | one reaction per choice, in order: the custom emoji when the host resolves the id, the unicode emoji otherwise |
| ButtonMenus.Initialize | src/main/java/me/xaanit/d4jutilities/menu/buttonmenu/ButtonMenu.java:66-102 | the loop issues exactly the specified operations |
| ButtonMenus.InitializeOrder | src/main/java/me/xaanit/d4jutilities/menu/buttonmenu/ButtonMenu.java:67-99 | one reaction per choice in list order, then exactly one registration, after the last reaction, with cancel as the timeout action |
| ButtonMenus.DisplayIn | src/main/java/me/xaanit/d4jutilities/menu/buttonmenu/ButtonMenu.java:50-53 | sends the menu and initializes the sent message |
| ButtonMenus.DisplayOver | src/main/java/me/xaanit/d4jutilities/menu/buttonmenu/ButtonMenu.java:60-64 | edits the message into the menu and initializes it |
| ButtonMenuBuilders.StringIds | src/main/java/me/xaanit/d4jutilities/menu/buttonmenu/ButtonMenuBuilder.java:142 | the string id of each emoji, in order |
| ButtonMenuBuilders.ButtonMenuBuilder.constructor | src/main/java/me/xaanit/d4jutilities/menu/buttonmenu/ButtonMenuBuilder.java:22-28 | defaults: a no-op cancel, no choices, nothing else set |
| ButtonMenuBuilders.ButtonMenuBuilder.SetColor | src/main/java/me/xaanit/d4jutilities/menu/buttonmenu/ButtonMenuBuilder.java:60-63 | stores the colour; nothing else changes |
| ButtonMenuBuilders.ButtonMenuBuilder.SetText | src/main/java/me/xaanit/d4jutilities/menu/buttonmenu/ButtonMenuBuilder.java:75-78 | stores the text; nothing else changes |
| ButtonMenuBuilders.ButtonMenuBuilder.SetDescription | src/main/java/me/xaanit/d4jutilities/menu/buttonmenu/ButtonMenuBuilder.java:88-91 | stores the description; nothing else changes |
| ButtonMenuBuilders.ButtonMenuBuilder.SetAction | src/main/java/me/xaanit/d4jutilities/menu/buttonmenu/ButtonMenuBuilder.java:100-103 | stores the action; nothing else changes |
| ButtonMenuBuilders.ButtonMenuBuilder.SetCancel | src/main/java/me/xaanit/d4jutilities/menu/buttonmenu/ButtonMenuBuilder.java:112-115 | stores the cancel callback; nothing else changes |
| ButtonMenuBuilders.ButtonMenuBuilder.AddChoices | src/main/java/me/xaanit/d4jutilities/menu/buttonmenu/ButtonMenuBuilder.java:127-130 | the emoji names are appended in order |
| ButtonMenuBuilders.ButtonMenuBuilder.AddEmojis | src/main/java/me/xaanit/d4jutilities/menu/buttonmenu/ButtonMenuBuilder.java:141-144 | the string ids of the emojis are appended in order |
| ButtonMenuBuilders.ButtonMenuBuilder.SetChoices | src/main/java/me/xaanit/d4jutilities/menu/buttonmenu/ButtonMenuBuilder.java:156-160 | the choice list becomes exactly the given names |
| ButtonMenuBuilders.ButtonMenuBuilder.SetEmojis | src/main/java/me/xaanit/d4jutilities/menu/buttonmenu/ButtonMenuBuilder.java:171-175 | the choice list becomes exactly the string ids of the given emojis |
| ButtonMenuBuilders.ButtonMenuBuilder.SetClient | src/main/java/me/xaanit/d4jutilities/menu/buttonmenu/ButtonMenuBuilder.java:184-187 | stores the client; nothing else changes |
| ButtonMenuBuilders.ButtonMenuBuilder.Build | src/main/java/me/xaanit/d4jutilities/menu/buttonmenu/ButtonMenuBuilder.java:31-49 | refuses, in order, no waiter, no choices, no action, neither text nor description, no client, with the source's messages; there is no upper bound on the choices; it succeeds iff none applies, and then the menu carries every setting |

## Left out

- Host I/O (RequestBuffer, sending, editing and deleting messages, adding and removing reactions) is not performed. Each operation is recorded in an `Op` log in the order it is issued. Whether an issued request has finished (the `.get()` calls) is not modelled.
- A message keeps its id after an edit. The model assumes this when it registers with the waiter on the edited message.
- The waiter's listener registration with the client, and D4JUtilities.java, are not modelled. D4JUtilities.java only returns metadata and prints.
- The ScheduledExecutorService and wall clock: a timer fires only when `Expire` is called. Timeout amounts and units are stored and compared, but no time passes.
- Races between the timer thread and `handle` on the unsynchronised lists are not modelled. Every operation is atomic.
- Waiter.Attempt: conditions and actions supplied by users always return normally. In Java, an exception thrown inside the stream of `handle` stops it before `removeAll`. Entries whose actions already ran then stay pending and fire again on the next event, and the rest of the class chain is skipped. Timeout tasks are modelled as a log entry that registers nothing.
- Pagination.PageEnd: `pageNum * itemsPerPage` is unbounded here. It agrees with Java's `int` arithmetic only while the product is below 2^31.
- Colour, EmbedBuilder and MessageBuilder are kept only as the strings, fields and colour values they receive.
- `Math.ceil` over doubles becomes integer ceiling division. The two agree for every int-sized item count and page size.
- `timeout` is an unbounded integer, not Java's `long`. It is only stored and compared with 0.
- Strings are sequences of code points; Java's are UTF-16. The typed-input length test gives the same answers for every input that can be accepted.
- OrderedMenus.TypedNumber: lower-casing is ASCII-only. Java's `toLowerCase` depends on the locale, and under a Turkish locale "I" does not become "i".
- ButtonMenus.ReactionFor: looking up a custom emoji by id in the client's guilds (`Long.parseLong` plus the guild walk) is a foreign call. Its outcome is the input `known`, the set of choices the host resolves to a custom emoji.
- OrderedMenus.DisplayIn: the ADD_REACTIONS lookup is the input `canAddReactions`. The channel-kind test (`instanceof Channel`) is the flag `isGuildChannel`.
- OrderedMenus.Initialize: the catch of a MissingPermissionsException is not modelled. Adding a reaction is assumed to succeed.
- OrderedMenus.Initialize, OrderedMenus.GetMessage, OrderedMenus.DisplayIn and OrderedMenus.DisplayOver require at most ten choices. The Java code would index past the emoji table on more, and build never produces such a menu.
- Pagination.Paginate and Pagination.Display require a well-formed Paginator, which is what build produces. The constructor is reachable only through build.
- PaginatorBuilders.PaginatorBuilder.Build requires the builder's column and page-size invariant, which its setters keep.
- The builders' lists and sets are copied into the built menus. In Java they are shared by reference, so later changes through the builder would show in an already built menu.
- A null callback other than a missing action, and a text function that returns null, are not modelled.
- Who a user is, what an emoji is and which roles a user has in a guild become plain values: ids, flags, names and role lists.
