# Cart state machine of the ShopyGen storefront

This project models the cart logic of the ShopyGen demo storefront in Dafny and proves properties of it. A cart is an ordered list of lines. Each line is a catalog item with an optional integer quantity. The cart changes along two paths:

- **The conversation path** (`app/utils/cartUtils.ts`). Order intents parsed from a language model reply (`add`, `remove`, `clear`, `checkout`, with an optional item name and quantity) become resolved `CartUpdate`s. `findMenuItem` resolves each free-text name to the first catalog item whose lower-cased name contains the query, or is contained in it. The `updateCart` reducer then applies the batch to the current cart as a left fold, in order.
- **The UI path** (`app/page.tsx`). The page holds the cart as component state. "Add to cart" raises an existing line by one or appends a new line with quantity 1. The quantity control sets a line's quantity, or deletes the line below 1. Closing the receipt empties the cart. The checkout button shows the total, the sum of `(quantity || 1) * price`.

Files:

- `wrappers.dfy`: `Option`, standing for optional fields.
- `menu_types.dfy`: the `MenuItem` record (also used for cart lines) and JavaScript's `q || fallback` on optional numbers.
- `cart_lines.dfy`: the list operations both paths share: `findIndex`, `filter` by id, and `map` over the lines of an id. It also holds the cart invariant and `Quantities`, a view of the cart as a map from id to `quantity || 1`. Every transition is proved to act on that map in a simple way, for all carts.
- `text_match.dfy`: ASCII `toLowerCase` and `includes`.
- `intents.dfy`: the parsed order intent.
- `cart_utils.dfy`: `findMenuItem`, `updateCart`, its map-level reference semantics, the batch fold (a function and the loop of the avatar component), and the intent-to-update conversion (a function and the loop of `processConversationForCart`).
- `storefront.dfy`: the `addToCart` and `updateQuantity` transitions, the total, and a class `App` for the page's cart state.
- `scenarios.dfy`: worked examples on a one-item catalog.

Modelling choices:

- Quantities are `Option<int>`. The JavaScript default `q || 1` is written out: an absent quantity and 0 are both falsy.
- Prices are integer cents.
- `MenuItem` and `CartItem` are one datatype, since the page casts the cart to `MenuItem[]`.

### Edge cases of the code

- A `remove` whose quantity is 0 removes the whole line, as an absent one does (`update.quantity || currentItem.quantity || 1`, cartUtils.ts:104).
- On a line whose quantity is absent or positive, a `remove` with a negative quantity goes to the "decrease" branch and raises the line's quantity (cartUtils.ts:107-116). On a line whose quantity is already negative it can instead delete the line.
- An `add` with quantity 0 stores 1.
- An `add` with a negative quantity stores that negative number (cartUtils.ts:88). So the reducer keeps quantities positive only when the update's quantity is absent or non-negative (`AddQuantityOk`). A line can therefore end up with a negative quantity, although the order-parsing prompt asks for quantities that default to 1 (llamaUtil.ts:24-27).
- A deleting `remove` filters out every line with the id (cartUtils.ts:108).
- `addToCart` and `updateQuantity` map over every line with the id (page.tsx:198-202, 214-216).
- The two points above matter only for carts with repeated ids.
- The total counts a line with quantity 0 as one unit (page.tsx:229).
- A catalog entry with an empty name matches every query, since every string includes the empty string (cartUtils.ts:69-70).

## Model

| member | source | states |
|---|---|---|
| `MenuTypes.OrOne` | ShopyGen-medical-diagnosis-doctor/app/utils/cartUtils.ts:88 | an absent quantity and 0 (both falsy) give the default 1; the result is never 0; it is at least 1 exactly when the quantity is absent or non-negative; any non-zero quantity, negative included, is kept |
| `CartLines.FindIndex` | ShopyGen-medical-diagnosis-doctor/app/utils/cartUtils.ts:81-83 | the result is -1 exactly when no line has the id; otherwise it is the first line with the id |
| `CartLines.Without` | ShopyGen-medical-diagnosis-doctor/app/utils/cartUtils.ts:108 | the filtered cart is no longer than the cart |
| `CartLines.WithoutMembers` | ShopyGen-medical-diagnosis-doctor/app/utils/cartUtils.ts:108 | the filtered cart holds exactly the lines whose id differs |
| `CartLines.WithoutAppend` | ShopyGen-medical-diagnosis-doctor/app/utils/cartUtils.ts:108 | filtering distributes over concatenation, so the kept lines stay in order |
| `CartLines.MapQuantity` | ShopyGen-medical-diagnosis-doctor/app/page.tsx:198-202 | mapping an id's lines keeps the cart's length; `MapQuantityAt`, `QuantitiesMapQuantity` and `MapQuantitySingle` state each line, the view and the distinct-id case |
| `CartLines.WithoutSingle` | ShopyGen-medical-diagnosis-doctor/app/utils/cartUtils.ts:108 | with distinct ids, filtering out line k's id leaves the cart with exactly line k removed |
| `CartLines.MapQuantityAt` | ShopyGen-medical-diagnosis-doctor/app/page.tsx:214-216 | mapping an id's lines gives each of them the new quantity and leaves every other line as it was |
| `CartLines.MapQuantityKeepsDistinct` | ShopyGen-medical-diagnosis-doctor/app/page.tsx:198-202 | mapping the quantity of an id's lines keeps distinct ids distinct |
| `CartLines.WithoutPreservesWellFormed` | ShopyGen-medical-diagnosis-doctor/app/utils/cartUtils.ts:108 | filtering keeps ids distinct and quantities positive, and the id is gone afterwards |
| `CartLines.WithoutKeepsDistinct` | ShopyGen-medical-diagnosis-doctor/app/utils/cartUtils.ts:108 | filtering out an id keeps distinct ids distinct, whatever the quantities |
| `CartLines.QuantitiesWithout` | ShopyGen-medical-diagnosis-doctor/app/utils/cartUtils.ts:108 | on every cart, filtering out an id removes exactly that id from the id-to-quantity view |
| `CartLines.QuantitiesSetAt` | ShopyGen-medical-diagnosis-doctor/app/utils/cartUtils.ts:86-90 | replacing the first line of an id changes only that id's entry in the view |
| `CartLines.QuantitiesMapQuantity` | ShopyGen-medical-diagnosis-doctor/app/page.tsx:198-202 | mapping an id's lines changes only that id's entry, to the first such line's new quantity |
| `TextMatch.ToLower` | ShopyGen-medical-diagnosis-doctor/app/utils/cartUtils.ts:69-70 | lower-casing keeps the length, leaves no upper-case letter, and changes nothing else |
| `TextMatch.Includes` | ShopyGen-medical-diagnosis-doctor/app/utils/cartUtils.ts:69-70 | `includes` holds exactly when the needle occurs at some position of the haystack |
| `TextMatch.IncludesEmptyAndSelf` | ShopyGen-medical-diagnosis-doctor/app/utils/cartUtils.ts:69-70 | every string includes the empty string and itself |
| `CartUtils.FindMenuItem` | ShopyGen-medical-diagnosis-doctor/app/utils/cartUtils.ts:67-72 | the result is absent exactly when no catalog item matches either way case-insensitively; otherwise it is the first match in catalog order |
| `CartUtils.Matches` | ShopyGen-medical-diagnosis-doctor/app/utils/cartUtils.ts:68-71 | the `find` predicate: a catalog name equal to the query up to case matches, and an empty catalog name matches every query |
| `CartUtils.EmptyNameMatchesAll` | ShopyGen-medical-diagnosis-doctor/app/utils/cartUtils.ts:67-72 | a first catalog entry with an empty name is returned for every query |
| `CartUtils.OwnNameFound` | ShopyGen-medical-diagnosis-doctor/app/utils/cartUtils.ts:67-72 | querying a catalog entry's own name always finds some entry |
| `CartUtils.UpdateCart` | ShopyGen-medical-diagnosis-doctor/app/utils/cartUtils.ts:74-124 | `clear` yields the empty cart; `add` or `remove` without an item returns the cart unchanged; at most one line is added |
| `CartUtils.UpdateCartFrame` | ShopyGen-medical-diagnosis-doctor/app/utils/cartUtils.ts:78-119 | an `add` or `remove` brings in and takes out only lines carrying the update's item id |
| `CartUtils.UpdateCartRefines` | ShopyGen-medical-diagnosis-doctor/app/utils/cartUtils.ts:74-124 | on every cart, the reducer acts on the id-to-quantity view as follows: `add` sets the quantity (not summed), `remove` subtracts or deletes, `clear` empties |
| `CartUtils.AddOverwrites` | ShopyGen-medical-diagnosis-doctor/app/utils/cartUtils.ts:85-90 | `add` of an id already present replaces the first line of that id with the item at the update quantity, defaulting to 1; length and all other lines are unchanged |
| `CartUtils.AddAppends` | ShopyGen-medical-diagnosis-doctor/app/utils/cartUtils.ts:91-93 | `add` of a new id appends one line, with the update quantity defaulting to 1, after the unchanged earlier lines |
| `CartUtils.RemoveAbsentIsNoop` | ShopyGen-medical-diagnosis-doctor/app/utils/cartUtils.ts:97-101 | `remove` of an id not in the cart returns the cart unchanged |
| `CartUtils.RemoveDeletes` | ShopyGen-medical-diagnosis-doctor/app/utils/cartUtils.ts:103-109 | `remove` whose quantity is absent, 0 or at least the line's leaves no line with the id; with distinct ids it removes exactly that line and keeps the order |
| `CartUtils.RemoveDecrements` | ShopyGen-medical-diagnosis-doctor/app/utils/cartUtils.ts:111-116 | `remove` with a non-zero quantity below the line's sets that line to current minus quantity, which is at least 1; other lines are unchanged |
| `CartUtils.UpdateCartPreservesWellFormed` | ShopyGen-medical-diagnosis-doctor/app/utils/cartUtils.ts:74-124 | from a cart with distinct ids and positive quantities, any update whose `add` quantity is not negative keeps both |
| `CartUtils.UpdateCartKeepsDistinct` | ShopyGen-medical-diagnosis-doctor/app/utils/cartUtils.ts:74-124 | every update, a negative `add` included, keeps distinct ids distinct |
| `CartUtils.ApplyAllAppend` | ShopyGen-medical-diagnosis-doctor/app/component/HeyGenAvatar.tsx:109-113 | folding a concatenated batch is folding the second part over the result of the first |
| `CartUtils.ClearResets` | ShopyGen-medical-diagnosis-doctor/app/utils/cartUtils.ts:118-119 | a `clear` in a batch discards everything before it: the result is the rest of the batch applied to the empty cart |
| `CartUtils.ApplyAll` | ShopyGen-medical-diagnosis-doctor/app/component/HeyGenAvatar.tsx:109-113 | folding a batch adds at most one line per update, and a batch ending in `clear` leaves the empty cart; `ApplyAllAppend`, `ClearResets` and `ApplyAllRefines` state the rest |
| `CartUtils.ApplyAllRefines` | ShopyGen-medical-diagnosis-doctor/app/component/HeyGenAvatar.tsx:109-113 | the fold acts on the id-to-quantity view as the fold of the map-level semantics |
| `CartUtils.ApplyAllPreservesWellFormed` | ShopyGen-medical-diagnosis-doctor/app/component/HeyGenAvatar.tsx:109-113 | a batch of updates with non-negative `add` quantities keeps a well-formed cart well-formed |
| `CartUtils.ApplyAllKeepsDistinct` | ShopyGen-medical-diagnosis-doctor/app/component/HeyGenAvatar.tsx:109-113 | any batch of updates keeps distinct ids distinct |
| `CartUtils.ApplyUpdates` | ShopyGen-medical-diagnosis-doctor/app/component/HeyGenAvatar.tsx:109-113 | the loop computes the left fold of `updateCart` over the batch, in batch order |
| `CartUtils.ConvertIntent` | ShopyGen-medical-diagnosis-doctor/app/utils/cartUtils.ts:29-59 | a resolving `add` intent becomes an `add` update and a `remove` intent a `remove` update, each carrying `findMenuItem`'s first match; `checkout` yields nothing and `clear` passes through; `add`/`remove` yield an update exactly when the name is present, non-empty and resolves, carrying the matched catalog item; `add` quantity defaults to 1, `remove` quantity is passed through unchanged |
| `CartUtils.Updates` | ShopyGen-medical-diagnosis-doctor/app/utils/cartUtils.ts:26-60 | no more updates than intents; every update is a `clear` or carries an item from the catalog |
| `CartUtils.UpdatesAppend` | ShopyGen-medical-diagnosis-doctor/app/utils/cartUtils.ts:28-60 | conversion is per intent and order-preserving: the updates of a concatenation are the concatenated updates |
| `CartUtils.UpdatesQuantitiesOk` | ShopyGen-medical-diagnosis-doctor/app/utils/cartUtils.ts:34-38 | intents with non-negative `add` quantities give updates whose `add` quantities are at least 1 |
| `CartUtils.TurnPreservesWellFormed` | ShopyGen-medical-diagnosis-doctor/app/component/HeyGenAvatar.tsx:102-113 | a whole conversation turn keeps a well-formed cart well-formed when no `add` intent has a negative quantity |
| `CartUtils.BuildUpdates` | ShopyGen-medical-diagnosis-doctor/app/utils/cartUtils.ts:26-64 | the loop over the intents returns exactly the per-intent updates, in intent order |
| `Storefront.AddToCartExisting` | ShopyGen-medical-diagnosis-doctor/app/page.tsx:196-202 | adding an id already present sets its lines to the old quantity (default 1) plus 1; length and the other lines are unchanged |
| `Storefront.AddToCartNew` | ShopyGen-medical-diagnosis-doctor/app/page.tsx:204 | adding an absent id appends exactly one line with quantity 1 at the end |
| `Storefront.AddedToCart` | ShopyGen-medical-diagnosis-doctor/app/page.tsx:194-206 | "add to cart" keeps every line or adds one, and the item's id is in the cart afterwards |
| `Storefront.AddToCartRefines` | ShopyGen-medical-diagnosis-doctor/app/page.tsx:194-206 | on every cart, "add to cart" sets the id's view entry to `(entry + 1) || 1`, or starts it at 1; it rises by one whenever the entry is not -1 |
| `Storefront.AddToCartPreservesWellFormed` | ShopyGen-medical-diagnosis-doctor/app/page.tsx:194-206 | "add to cart" keeps ids distinct and quantities positive |
| `Storefront.AddToCartKeepsDistinct` | ShopyGen-medical-diagnosis-doctor/app/page.tsx:194-206 | "add to cart" keeps distinct ids distinct, whatever the quantities |
| `Storefront.UpdateQuantityBelowOne` | ShopyGen-medical-diagnosis-doctor/app/page.tsx:209-211 | a new quantity below 1 removes every line with the id and keeps the rest in order |
| `Storefront.UpdateQuantitySets` | ShopyGen-medical-diagnosis-doctor/app/page.tsx:213-217 | a new quantity of at least 1 is set on the id's lines and nothing else changes; an absent id leaves the cart unchanged |
| `Storefront.QuantityUpdated` | ShopyGen-medical-diagnosis-doctor/app/page.tsx:208-218 | `updateQuantity` never adds a line, and below 1 leaves no line with the id |
| `Storefront.UpdateQuantityRefines` | ShopyGen-medical-diagnosis-doctor/app/page.tsx:208-218 | on every cart, `updateQuantity` deletes the id from the view below 1, otherwise sets it if present |
| `Storefront.UpdateQuantityPreservesWellFormed` | ShopyGen-medical-diagnosis-doctor/app/page.tsx:208-218 | every `updateQuantity` keeps ids distinct and quantities positive |
| `Storefront.UpdateQuantityKeepsDistinct` | ShopyGen-medical-diagnosis-doctor/app/page.tsx:208-218 | every `updateQuantity` keeps distinct ids distinct, whatever the quantities |
| `Storefront.AddPathsDiffer` | ShopyGen-medical-diagnosis-doctor/app/page.tsx:198-202 | on a line already present, the conversation `add` without quantity sets it to 1, while "add to cart" raises it by one |
| `Storefront.CartTotalAppend` | ShopyGen-medical-diagnosis-doctor/app/page.tsx:228-231 | the total of a concatenation is the sum of the totals |
| `Storefront.CartTotal` | ShopyGen-medical-diagnosis-doctor/app/page.tsx:228-231 | the `reduce` total is 0 on the empty cart; `CartTotalAppend`, `CartTotalSetAt` and `CartTotalDropAt` state how it follows each transition |
| `Storefront.CartTotalSetAt` | ShopyGen-medical-diagnosis-doctor/app/page.tsx:228-231 | replacing a line changes the total by the difference of the two line totals |
| `Storefront.CartTotalNonNegative` | ShopyGen-medical-diagnosis-doctor/app/page.tsx:228-231 | with positive quantities and non-negative prices the total is not negative |
| `Storefront.AddToCartTotal` | ShopyGen-medical-diagnosis-doctor/app/page.tsx:194-206 | in a well-formed cart, "add to cart" raises the total by one unit price |
| `Storefront.CartTotalDropAt` | ShopyGen-medical-diagnosis-doctor/app/page.tsx:228-231 | dropping one line lowers the total by exactly that line's price times its quantity |
| `Storefront.UpdateQuantityTotal` | ShopyGen-medical-diagnosis-doctor/app/page.tsx:208-218 | in a well-formed cart, `updateQuantity` lowers the total by the deleted line, or changes it by the quantity difference times the price |
| `Storefront.App.constructor` | ShopyGen-medical-diagnosis-doctor/app/page.tsx:155-157 | the page starts with an empty cart and no receipt shown |
| `Storefront.App.Total` | ShopyGen-medical-diagnosis-doctor/app/page.tsx:228-231 | the total of the empty cart is 0 |
| `Storefront.App.AddToCart` | ShopyGen-medical-diagnosis-doctor/app/page.tsx:194-206 | the cart becomes the "add to cart" transition of the old cart; a well-formed cart stays well-formed, and distinct ids stay distinct from any cart |
| `Storefront.App.UpdateQuantity` | ShopyGen-medical-diagnosis-doctor/app/page.tsx:208-218 | the cart becomes the `updateQuantity` transition of the old cart; a well-formed cart stays well-formed, and distinct ids stay distinct from any cart |
| `Storefront.App.ProcessTurn` | ShopyGen-medical-diagnosis-doctor/app/component/HeyGenAvatar.tsx:100-114 | the cart becomes the fold of the turn's updates over the old cart; it stays well-formed when no `add` intent has a negative quantity, and distinct ids stay distinct in every case |
| `Storefront.App.Checkout` | ShopyGen-medical-diagnosis-doctor/app/page.tsx:297-307 | with a non-empty cart, the receipt is shown with the given order id and the cart is kept |
| `Storefront.App.CloseReceipt` | ShopyGen-medical-diagnosis-doctor/app/page.tsx:324-327 | closing the receipt hides it and empties the cart |
| `Storefront.App.RemoveLine` | ShopyGen-medical-diagnosis-doctor/app/component/ShoppingContainer.tsx:198-205 | the remove button sets the cart to `Without` of the old cart, leaves no line with the id, keeps the other fields, keeps a well-formed cart well-formed, and keeps distinct ids distinct |
| `Scenarios.BurgerResolves` | ShopyGen-medical-diagnosis-doctor/app/utils/cartUtils.ts:67-72 | "burger" resolves to "Classic Cheeseburger" |
| `Scenarios.BurgerTurn` | ShopyGen-medical-diagnosis-doctor/app/utils/cartUtils.ts:28-60 | an `add "burger" 2` intent on an empty cart gives two cheeseburgers, 1300 cents in all |
| `Scenarios.BatchOrderMatters` | ShopyGen-medical-diagnosis-doctor/app/component/HeyGenAvatar.tsx:109-113 | "add 2, remove 1" leaves one; the reversed batch leaves two |

## Left out

- The calls to hosted language models are not modelled: the Together/Llama call (llamaUtil.ts:40-92), the OpenAI call (openaiUtils.ts) and the call at cartUtils.ts:21. They are network I/O. The parsed intents are an input of `BuildUpdates` and `App.ProcessTurn`.
- The `JSON.parse` fallback to an empty list (llamaUtil.ts:81-87) is not modelled. A reply that does not parse is simply an empty intent list, which yields no updates.
- The conversation transcript (`ConversationMessage`) is not modelled, because it only feeds the language model.
- The streaming-avatar session, token fetch, event wiring and video element of HeyGenAvatar.tsx are left out: they are third-party SDK plumbing.
- React timing is left out: `useState`/`useEffect`, the typewriter demo (page.tsx:161-177), and the stale `transcriptList` and `currentCart` closures of the avatar component. `App.ProcessTurn` folds over the page's current cart.
- The view components are left out: ShoppingContainer.tsx, OrderReceipt.tsx, Cart.tsx, Header.tsx and component/types.ts, including their item-count reducers. They only render, except the remove button of a cart line (ShoppingContainer.tsx:198-205), which replaces the cart by its `filter` on the id; that transition is `App.RemoveLine`, equal to `Without` of the cart.
- Floating-point money is left out: prices are integer cents, and `toFixed` formatting and the receipt's shipping cost are not modelled.
- The random order id of the checkout button (page.tsx:301-304) is a parameter of `App.Checkout`.
- The fifteen catalog entries of page.tsx:24-150 are configuration; the catalog is a constructor argument of `App`.
- `toLowerCase` is modelled for ASCII letters only; Unicode case mapping is not.
- JavaScript number quirks are not modelled: NaN (also falsy under `||`) and fractional quantities. Quantities are integers.
- The `default` branch of `updateCart` (cartUtils.ts:121-122) is not modelled. It is unreachable, because an update's action is always one of the three actions.
- `processRealtimeVoiceOrder` (page.tsx:185-192) is not modelled; it only logs.
