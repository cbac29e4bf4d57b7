# rebuy-mart cart model

A Dafny model of the shopping-cart data layer of the rebuy-mart storefront
script (`script.js`). The storefront keeps its cart under one key of the
browser's local storage. The cart is an ordered list of line items
`{id, name, price, quantity}`. Four handlers work on it:

- **add to cart** bumps the first line item with the product's id, or appends
  a new line item with quantity 1;
- **remove from cart** filters out every line item with the given id;
- **cart count** sums the quantities; the header badge shows `""` for zero and
  `"(n)"` otherwise;
- **checkout** refuses an empty cart, otherwise removes the stored cart.

Files:

- `wrappers.dfy` (module `Wrappers`): the `Option` type used for the storage
  slot and for search results.
- `cart.dfy` (module `CartItems`): the cart as a value. Line items, products,
  the search behind `cart.find`, add, remove, the total count, and the lemmas
  relating them.
- `badge.dfy` (module `Badge`): the decimal numeral of a count, its inverse
  `ValueOf`, and the badge text.
- `store.dfy` (module `Storage`): the class `CartStore`. Its field `stored`
  is the storage slot, and its methods are the script's handlers. Each method
  is proved against the functions of `CartItems` and `Badge`.

The unit price is a type parameter `P`. The script only copies it from a
product into a line item; all arithmetic on it is floating point and is not
modelled. A quantity is a `Quantity`, a natural number of at least 1.

Three behaviours of the code that the model keeps:

- `cart.find` returns the first line item with the product's id
  (script.js:18). When two line items share an id, `AddItem` bumps the first.
- `getCart` passes a stored string to `JSON.parse` (script.js:6), which throws
  on a malformed value. The model stores the cart value itself, so that case
  does not arise (see "Left out").
- The checkout handler tests the length of the loaded cart, not whether
  anything is stored (script.js:112-116). A stored empty cart, left behind by
  removing the last item, is refused and stays as it is
  (`Storage.CartStore.Checkout`).

## Model

| member | source | states |
|---|---|---|
| `Storage.CartStore.Load` | script.js:4-7 | With nothing stored, loading gives the empty cart; with a cart stored, it gives that cart. |
| `Storage.CartStore.Save` | script.js:10-12 | Saving replaces the slot with the given cart, and a later load returns exactly that cart. |
| `CartItems.FindIndex` | script.js:18 | The result is the first position whose line item has the id. It is None exactly when no line item has that id. |
| `CartItems.FindFirst` | script.js:18 | The front-to-back scan returns the same position as `FindIndex`. |
| `CartItems.FindIndexUnique` | script.js:18 | Any position that is first with an id is the one `FindIndex` returns. |
| `CartItems.NewLine` | script.js:22 | A new line item copies the product's id, name and price, with quantity 1. |
| `CartItems.AddItem` | script.js:15-23 | Afterwards the cart holds the product's id. If the id was absent, the old cart is kept as a prefix and the new line item follows, one longer. If present, the length is unchanged. The first line item with that id keeps its id, name and price and gains one unit; every other line item is unchanged. |
| `CartItems.AddKeepsIdsUnique` | script.js:18-22 | Add keeps the ids of a cart with unique ids unique. |
| `CartItems.AddIncrementsTotal` | script.js:18-22 | Add raises the total count by exactly 1. |
| `CartItems.AddSameTwice` | script.js:18-22 | Adding one product twice to an empty cart gives one line item of quantity 2, with total count 2. Removing its id then empties the cart. |
| `CartItems.AddTwoDistinct` | script.js:18-22 | Adding two products with different ids to an empty cart gives two new line items of quantity 1, in order. |
| `Storage.CartStore.Add` | script.js:15-24 | The slot afterwards holds `AddItem` of the loaded cart. The total count grows by 1, and unique ids stay unique. |
| `CartItems.RemoveId` | script.js:31 | The result is no longer than the cart, and no line item in it has the removed id. |
| `CartItems.RemoveIdConcat` | script.js:31 | Remove on a concatenation is the concatenation of the removes. Together with `RemoveIdSingle`, this says remove is the in-order filter. |
| `CartItems.RemoveIdSingle` | script.js:31 | A single line item is kept exactly when its id differs from the removed id. |
| `CartItems.RemoveIdMembers` | script.js:31 | A line item is in the result exactly when it is in the cart and its id differs. |
| `CartItems.RemoveIdAbsent` | script.js:31 | Removing an id that no line item has leaves the cart unchanged. |
| `CartItems.RemoveIdIdempotent` | script.js:31 | Removing twice equals removing once. |
| `CartItems.RemoveIdAvoids` | script.js:31 | An id that no line item has is still absent after a remove. |
| `CartItems.RemoveKeepsIdsUnique` | script.js:31 | Remove keeps ids unique. |
| `CartItems.RemovePresentId` | script.js:31 | With unique ids, removing a present id drops exactly one line item. The count falls by that item's quantity. |
| `Storage.CartStore.Remove` | script.js:29-32 | The slot afterwards holds the filtered loaded cart. Unique ids stay unique, and an absent id leaves the loaded cart unchanged. |
| `CartItems.TotalQuantity` | script.js:40 | The count is at least the number of line items, since each holds at least one unit. |
| `CartItems.TotalQuantityConcat` | script.js:40 | The count of a concatenation is the sum of the counts. |
| `CartItems.TotalQuantityUpdate` | script.js:20 | Replacing one line item changes the count by the difference of the two quantities. |
| `CartItems.TotalQuantityZero` | script.js:40 | The count is 0 exactly when the cart is empty. |
| `Storage.CartStore.Count` | script.js:39-40 | The front-to-back sum starting at 0 equals `TotalQuantity` of the loaded cart. It is 0 exactly when that cart is empty. |
| `Badge.Decimal` | script.js:43 | The rendering of a count is a canonical numeral: only digits, and no leading zero. It denotes the count. |
| `Badge.DecimalOfValue` | script.js:43 | Rendering the value of a canonical numeral gives back that numeral, so `Decimal` and `ValueOf` are inverse. |
| `Badge.BadgeText` | script.js:43 | The text is empty exactly when the count is 0. Otherwise it is `(`, a canonical numeral denoting the count, then `)`. |
| `Badge.CartBadgeEmpty` | script.js:40-43 | A cart's badge is empty exactly when the cart has no line items. |
| `Badge.BadgeOfTwo` | script.js:43 | A count of 2 reads "(2)". |
| `Storage.CartStore.BadgeText` | script.js:38-44 | The text written into the badges is `Badge.BadgeText` of the loaded cart's count. It is empty exactly when the loaded cart is empty. |
| `Storage.CartStore.Checkout` | script.js:112-118 | Checkout is accepted exactly when the loaded cart is non-empty. On refusal the slot is untouched. On acceptance the slot is cleared, so a later load is empty with count 0. |

## Left out

- Rendering (`renderCart`), the DOM lookups, the button markup, the order
  message and `form.reset`: presentation only, with no state beyond the cart.
- Line subtotals and the grand total (`price * quantity`, `toFixed(2)`):
  floating-point arithmetic and formatting; the price is carried, never computed with.
- `JSON.parse` / `JSON.stringify`: the slot holds the cart value itself.
  A malformed stored string, or the empty string that `getCart` would read as
  an empty cart, cannot arise in the model; `saveCart` never writes either.
- `parseFloat` of the button's price attribute, the one-second "Added" feedback
  timer, `alert`, and the `DOMContentLoaded` / click / submit listener wiring:
  browser and event plumbing. Each handler is a method; which events call them
  is not modelled.
- The re-render and badge refresh that `addToCart`, `removeFromCart` and the
  checkout handler trigger: the refresh is the read-only `Storage.CartStore.BadgeText`,
  not a step inside the state-changing methods.
- Quantities and counts are unbounded naturals; the script's numbers are
  doubles, which stop counting exactly past 2^53 units.
