# Inventory dashboard state, modelled in Dafny

The inventory dashboard keeps one ordered list of `Product` records. Each record has an id, a name, a category, a quantity, a supplier and one of three statuses: In Stock, Low Stock or Out of Stock. It also keeps three filter strings (search term, category, supplier), the set of ids whose cards are animating, and a dark-mode flag. From these it derives:

- the filtered list;
- three status lanes;
- the category and supplier filter options.

A card dropped on another lane changes that record's status after a timer. Records are added and edited through forms. The list is exported and imported as JSON, reset to an eight-record sample, cleared, and saved to browser storage after every change.

The repository has two versions of this logic, and they are modelled as two related state machines:

- `src/pages/DashboardPage.tsx` (module `Dashboard`, class `Page`). A drop changes only `status`, in one timer step that also takes the card out of the animating set. Dark mode is stored under `"dark-mode"`.
- `src/components/dum.tsx` (module `Legacy`, class `Inventory`). A drop also rewrites `quantity` with `getQuantityByStatus`. The card leaves the animating set in a second, nested timer. The add form checks the three required fields itself. Dark mode follows the system preference and is not stored.

Both use the pure modules below:

- `Products`: the record, the seed, the lookup by id and the `map`-by-id updates.
- `Views`: the filter predicate, the filtered view, the lanes, and the category and supplier options.
- `Text`: ASCII lower-casing and substring search.
- `Sequences`: `filter`, subsequence, and `[...new Set(xs)]`.

The lanes of `dum.tsx` (lines 681-690) use the same `Views.Lane`. Lemma `Legacy.SameViewAsPage` proves that its filter, written as three named conditions, gives the same list as the page's filter.

Each state machine is a class whose fields are the component's state. Pending `setTimeout` callbacks are an explicit queue `timers`, and `FireTimer(k)` runs any pending timer. The drop handler and the timer callback are specified by pure step functions `Drop` and `Fire` on a `Board` value (products, animating set, timers). The lemmas about the transitions are proved on those functions. Each mutating method also keeps the storage effect's invariant: the stored list is the current list.

Behaviour worth knowing:

- **Clear.** It removes the storage entry. Then the storage effect runs because `products` changed, and it writes `[]` back. A reload therefore shows an empty list, not the seed.
- **Import.** It does not validate records. Any successful `JSON.parse` replaces the list.
- **Overlapping drops.** A second drop on a card that is still animating is accepted and schedules a second commit (`Dashboard.OverlappingDrops`). That commit runs after the first timer has already removed the card from the animating set.
- **Editing a record with id 0.** The modal saves the record under `Date.now()`, because id 0 is falsy. The save then matches no record, so the edit is lost (`Dashboard.EditOfZeroIdIsLost`).

## Model

| member | source | states |
|---|---|---|
| `Text.ToLower` | src/pages/DashboardPage.tsx:111 | keeps the length, lower-cases each character, and leaves no upper-case ASCII letter |
| `Text.ToLowerIdempotent` | src/pages/DashboardPage.tsx:111 | lower-casing an already lower-cased name or term changes nothing |
| `Text.Includes` | src/pages/DashboardPage.tsx:111 | `includes` is true exactly when the term occurs at some position of the name |
| `Text.IncludesEmpty` | src/pages/DashboardPage.tsx:111 | the empty search term occurs in every name |
| `Sequences.Filter` | src/pages/DashboardPage.tsx:109-114 | the result holds exactly the elements that satisfy the predicate, each as many times as it occurs in the input, and is an order-preserving subsequence of it |
| `Sequences.FilterKeepsAll` | src/pages/DashboardPage.tsx:109-114 | a filter whose predicate holds everywhere returns its input unchanged |
| `Sequences.Distinct` | src/pages/DashboardPage.tsx:101-102 | `[...new Set(xs)]` has no duplicates, holds exactly the values of `xs`, and lists them in order of first occurrence |
| `Products.Seed` | src/components/dum.tsx:38-103 | the sample list has 8 records with ids 1..8, so its ids are distinct (the page's copy at DashboardPage.tsx:9-74 is identical) |
| `Products.FindById` | src/pages/DashboardPage.tsx:125 | `find` fails exactly when no record has the id; otherwise it returns the first record with that id |
| `Products.UpdateWhere` | src/pages/DashboardPage.tsx:129-133 | `map(p => p.id === id ? f(p) : p)` keeps the length, rewrites exactly the records with the id by `f`, and leaves every other record in place |
| `Products.SetStatus` | src/pages/DashboardPage.tsx:129-133 | the page's commit keeps the length and every other record, and changes only `status` of records with the id (the quantity is kept) |
| `Products.ReplaceById` | src/pages/DashboardPage.tsx:268-271 | edit save keeps the length, replaces exactly the records whose id is the saved id, and leaves the rest unchanged |
| `Products.UpdateKeepsIds` | src/pages/DashboardPage.tsx:129-133 | an id-preserving `map` by id keeps every record's id, so it keeps ids unique |
| `Products.FindAfterSetStatus` | src/pages/DashboardPage.tsx:125-133 | after a commit, looking the id up finds the same record with the target status, or still nothing |
| `Products.AppendFresh` | src/pages/DashboardPage.tsx:258-261 | appending a record with an unused id keeps ids unique and makes the record findable |
| `Views.Matches` | src/pages/DashboardPage.tsx:110-113 | with all three filters empty, every product matches |
| `Views.MatchesIgnoresStatus` | src/pages/DashboardPage.tsx:110-113 | changing a product's status never changes whether it matches |
| `Views.MatchesIgnoresCase` | src/pages/DashboardPage.tsx:111 | searching for the lower-cased term gives the same answer as the term itself |
| `Views.FilteredView` | src/pages/DashboardPage.tsx:108-116 | a product is in the view iff it is in the list and its lower-cased name contains the lower-cased term, the category filter is empty or equal, and the supplier filter is empty or equal; each matching product appears as often as in the list, and the view keeps list order |
| `Views.EmptyFiltersShowAll` | src/pages/DashboardPage.tsx:108-116 | with all three filters empty, the view is the whole list |
| `Views.SearchScenario` | src/pages/DashboardPage.tsx:108-116 | searching "iphone" in [iPhone 15 Pro, Gaming Chair] gives exactly the first record |
| `Views.Lane` | src/pages/DashboardPage.tsx:239-240 | a lane holds exactly the view's products with that status, each as often as in the view |
| `Views.LanesPartition` | src/pages/DashboardPage.tsx:228-240 | the multisets of the three lanes add up to the view's multiset |
| `Views.LaneMultiplicity` | src/pages/DashboardPage.tsx:228-240 | a product occurs in the lane of its own status as often as in the view, and in no other lane |
| `Views.LaneSizes` | src/pages/DashboardPage.tsx:228-240 | the three lane sizes add up to the length of the view |
| `Views.LanesDisjoint` | src/pages/DashboardPage.tsx:228-240 | no product is in two lanes |
| `Views.Options` | src/pages/DashboardPage.tsx:101-102 | the options have no duplicates, each is the field of some product, every product's field is listed, and they follow first appearance in the list |
| `Views.Categories` | src/pages/DashboardPage.tsx:101 | category options: no duplicates, and a value is listed iff some product has that category |
| `Views.Suppliers` | src/pages/DashboardPage.tsx:102 | supplier options: no duplicates, and a value is listed iff some product has that supplier |
| `Dashboard.Drop` | src/pages/DashboardPage.tsx:122-127 | the drop never touches the products; it changes the board iff the id is found with a different status; an effective drop adds the id to the animating set and queues one commit |
| `Dashboard.Fire` | src/pages/DashboardPage.tsx:128-139 | the timer keeps the length, sets the target status on records with the id and keeps their other fields, keeps every other record, removes the id from the animating set and dequeues itself |
| `Dashboard.FullTransition` | src/pages/DashboardPage.tsx:125-139 | for a card not animating: after the drop it animates and nothing is mutated; after the timer the status is committed and the animating set and queue are back to their prior values |
| `Dashboard.OverlappingDrops` | src/pages/DashboardPage.tsx:125-139 | a second drop on a card still animating is accepted, and its commit stays queued after the card has left the animating set |
| `Dashboard.CommitCommutesWithFilter` | src/pages/DashboardPage.tsx:108-133 | filtering after a commit equals committing in the filtered view, because the filter ignores status |
| `Dashboard.CommitMovesOneCard` | src/pages/DashboardPage.tsx:129-133 | with unique ids, a committed drop grows the target lane by one, shrinks the source lane by one, and keeps the third lane's size |
| `Dashboard.CommitLaneDelta` | src/pages/DashboardPage.tsx:129-133 | with unique ids, a committed drop changes lane `s` by +1 if it is the target, -1 if it is the card's old lane, 0 otherwise |
| `Dashboard.JsonBool` | src/pages/DashboardPage.tsx:143-154 | the stored flag reads back as the same mode on reload (`"true"` iff on) |
| `Dashboard.EditSavesInPlace` | src/components/AddEditProductModal.tsx:26-28 | with unique ids, editing a record with a non-zero id saves it under that id, so the edit save replaces exactly that record and keeps every other one |
| `Dashboard.EditOfZeroIdIsLost` | src/components/AddEditProductModal.tsx:26-28 | saving an edit of a record with id 0 changes no record when the timestamp is unused |
| `Dashboard.DarkModeFrom` | src/pages/DashboardPage.tsx:86-88 | with no stored flag, or a stored `"false"`, the page starts in light mode |
| `Dashboard.Page.constructor` | src/pages/DashboardPage.tsx:77-91 | the stored list if present, else the seed; empty filters, nothing animating; dark mode iff the stored flag is "true" |
| `Dashboard.Page.View` | src/pages/DashboardPage.tsx:108-116 | the shown list holds exactly the products matching the current filters, and all products when the filters are empty |
| `Dashboard.Page.Cards` | src/pages/DashboardPage.tsx:239-240 | a lane shows exactly the products that match the current filters and have the lane's status |
| `Dashboard.Page.HandleDrop` | src/pages/DashboardPage.tsx:122-141 | accepted iff the guard holds; the new board is `Drop` of the old one |
| `Dashboard.Page.FireTimer` | src/pages/DashboardPage.tsx:128-139 | the new board is `Fire` of the old one, and the storage holds the new list |
| `Dashboard.Page.ToggleDarkMode` | src/pages/DashboardPage.tsx:143-154 | the flag is negated and its JSON value stored, so the stored flag still reproduces it |
| `Dashboard.Page.OpenAddForm` | src/pages/DashboardPage.tsx:182 | the add modal is open |
| `Dashboard.Page.StartEdit` | src/pages/DashboardPage.tsx:247 | the edit modal is open on the record |
| `Dashboard.Page.SaveNew` | src/pages/DashboardPage.tsx:258-261 | the record is appended at the end, and the add modal closes |
| `Dashboard.Page.SaveEdit` | src/pages/DashboardPage.tsx:268-273 | the list becomes `ReplaceById` of the old list, and the edit modal closes |
| `Dashboard.Page.Import` | src/pages/DashboardPage.tsx:194-208 | a failed parse leaves the list unchanged; a successful one replaces it wholesale |
| `Dashboard.Page.Reset` | src/pages/DashboardPage.tsx:209 | the list is the seed |
| `Dashboard.Page.Clear` | src/pages/DashboardPage.tsx:210-213 | the list is empty and the storage ends up holding the empty list |
| `Legacy.QuantityByStatus` | src/components/dum.tsx:215-226 | 0 for Out of Stock, in [1,5] for Low Stock, in [20,59] for In Stock |
| `Legacy.Restock` | src/components/dum.tsx:192-202 | the commit keeps the length and the other records, and sets both status and quantity on records with the id |
| `Legacy.CommitsDifferOnlyInQuantity` | src/components/dum.tsx:192-202 | this commit and the page's commit agree on every field except the moved record's quantity |
| `Legacy.CommitQuantityFitsStatus` | src/components/dum.tsx:192-226 | after the commit the moved record's quantity fits its new status |
| `Legacy.Drop` | src/components/dum.tsx:183-190 | same guard as the page: the board changes iff the id is found with a different status; an effective drop marks the card and queues the commit |
| `Legacy.Fire` | src/components/dum.tsx:191-211 | a commit rewrites status and quantity, keeps the card animating and queues the unmarking; an unmarking only removes the id from the animating set |
| `Legacy.FullTransition` | src/components/dum.tsx:186-211 | for a card not animating, three steps: marked with nothing mutated; moved and restocked while still animating; unmarked, with the animating set and queue back to their prior values |
| `Legacy.LegacyView` | src/components/dum.tsx:158-170 | a product is in the view iff it is in the list and matches the search, category and supplier conditions; each matching product appears as often as in the list, and the view keeps list order |
| `Legacy.SameViewAsPage` | src/components/dum.tsx:158-170 | this dashboard's filtered list equals the page's |
| `Legacy.StatusCount` | src/components/dum.tsx:580-606 | a status card's number is at most the number of products |
| `Legacy.StatusCountsSum` | src/components/dum.tsx:567-606 | the three status cards add up to the "Total Products" card |
| `Legacy.EmptyDraft` | src/components/dum.tsx:116-122 | an empty add form cannot be added: adding it leaves every list unchanged |
| `Legacy.AddDraft` | src/components/dum.tsx:241-258 | with a required field empty the list is unchanged; otherwise one record with the draft's fields and id `now` is appended |
| `Legacy.AddKeepsIdsUnique` | src/components/dum.tsx:241-248 | an add under an unused timestamp keeps ids unique |
| `Legacy.Inventory.constructor` | src/components/dum.tsx:105-145 | the stored list if present, else the seed; empty filters and draft; dark mode follows the system preference |
| `Legacy.Inventory.View` | src/components/dum.tsx:158-170 | the shown list holds exactly the products matching the current filters, by the page's filter predicate |
| `Legacy.Inventory.ToggleDarkMode` | src/components/dum.tsx:148-151 | the flag is negated |
| `Legacy.Inventory.HandleDrop` | src/components/dum.tsx:183-213 | accepted iff the guard holds; the new board is `Drop` of the old one |
| `Legacy.Inventory.FireTimer` | src/components/dum.tsx:191-211 | the new board is `Fire` of the old one, with the given random draw |
| `Legacy.Inventory.HandleEdit` | src/components/dum.tsx:228-230 | the edit form is open on the record |
| `Legacy.Inventory.HandleSave` | src/components/dum.tsx:232-239 | with nothing being edited the list is unchanged; otherwise it becomes `ReplaceById` with the edited record; the edit slot ends empty |
| `Legacy.Inventory.SetDraftQuantity` | src/components/dum.tsx:727-735 | only the draft's quantity changes, to the parsed number or 0 |
| `Legacy.Inventory.AddNewProduct` | src/components/dum.tsx:241-258 | added iff name, category and supplier are non-empty; the list becomes `AddDraft`; on success the draft is emptied and the form closes, otherwise both are kept |
| `Legacy.Inventory.CancelAdd` | src/components/dum.tsx:804-812 | the form closes and the draft is emptied |
| `Legacy.Inventory.ImportData` | src/components/dum.tsx:271-289 | a failed parse leaves the list unchanged; a successful one replaces it wholesale |
| `Legacy.Inventory.ClearData` | src/components/dum.tsx:291-296 | once confirmed, the list is empty; otherwise it is unchanged |
| `Legacy.Inventory.ResetToDefault` | src/components/dum.tsx:298-302 | once confirmed, the list is the seed; otherwise it is unchanged |

## Left out

- Rendering: JSX, the CSS helpers (`getColumnStyle`, `getStatusBadge`, `getStatusIcon`) and the header, sidebar, filter and card components. They only pass state through.
- The login page: a fixed credential comparison with router navigation.
- The add/edit modal's required-field checks. These live in react-hook-form, which is not part of this model. Only its id rule (`Dashboard.SubmittedId`, with lemmas `Dashboard.EditSavesInPlace` and `Dashboard.EditOfZeroIdIsLost`) is modelled.
- The modal's quantity field type. The page's modal registers `quantity` without `valueAsNumber` (src/components/AddEditProductModal.tsx:47-51), so a record saved after that field is edited carries the quantity as a string. The model's `Product.quantity` is always an integer.
- JSON and browser storage.
  - `JSON.stringify` and `JSON.parse` are treated as exact inverses on product lists. The storage entry is modelled as the list it holds.
  - A stored value that does not parse makes the source throw on load. The model only takes a parsed list or its absence.
- Import parsing.
  - The file read and `JSON.parse` are an `Option` argument: `None` means the parse threw.
  - A payload that parses but is not a list of products is not representable. The source stores such a payload unchecked.
- Export: building a Blob and a download link is I/O with no state change.
- Timing. The 100 ms and 300 ms delays are not modelled. Any pending timer may fire next, which over-approximates the real order.
- `Math.random()` and `Date.now()` are method arguments. The random draw is constrained to [0, 1).
- Legacy.FireTimer: draws one random number per commit. The source calls `getQuantityByStatus` once per record carrying the id, so it differs only when ids are duplicated.
- The dragged id is an integer argument. A `dataTransfer` text that does not parse gives `NaN`, which matches no record, so it behaves like an unknown id.
- `toLowerCase` is ASCII-only. Unicode case mapping is not modelled.
- The three filter strings and the `dum.tsx` draft's name, category, supplier and status are plain fields. Their setters only write the field.
- `confirm` and `alert` dialogs: the answer to a confirmation is an argument, and an alert has no state effect.
- The DOM `dark` class, the sidebar toggle, `isLoaded` and the media query: presentation. The media query's answer is the `prefersDark` argument.
- React scheduling: each method is one committed state update followed by the storage effect it triggers.
