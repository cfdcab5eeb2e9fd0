# Storefront quote screens — a Dafny model

This project models the logic under two screens of an IT-hardware reseller's
web storefront:

- **Featured Products** (`src/components/home/FeaturedProducts.tsx`): it
  fetches the featured product list and decodes it leniently
  (`products`, else `data`, else empty). It has a product-details dialog
  whose image gallery keeps a cyclic index, changed by "next", "previous"
  and the gallery dots. Its "Request Quote" buttons, on each card and in
  the dialog, are enabled only for available products. An enabled click
  hands off a quote item (one unit, first image or a placeholder) and a
  summary whose `code` is `BRAND-MODEL` upper-cased.
- **Admin Quotes** (`src/pages/admin/Quotes.tsx`): it fetches the quote
  requests and shows those that pass a conjunctive filter. The filter is a
  case-insensitive substring search over name, email or company, plus a
  status drop-down and an urgency drop-down, where `"all"` is neutral. The
  screen colours status and urgency badges by fixed lookups with a
  `secondary` fallback and counts pending requests over the whole list. A
  status update re-fetches on success and changes nothing on failure.

Modules:

- `Text` (`text.dfy`): ASCII `toLowerCase`/`toUpperCase` and `includes`.
- `Http` (`http.dfy`): a request's outcome, `Ok(body)` or `Failed`, and
  `Option` for JSON keys that may be absent.
- `Gallery` (`gallery.dfy`): JavaScript's truncating `%`, the next and
  previous index, and the cycle lemmas.
- `FeaturedProducts` (`featured_products.dfy`): the product data, the
  response decode, the quote hand-off, and the class
  `FeaturedProductsScreen` holding the component state (`products`,
  `loading`, `selectedProduct`, `showViewDialog`, `currentImageIndex`).
- `AdminQuotes` (`admin_quotes.dfy`): the quote-request data, the filter
  and its laws, the badge lookups, the pending count, and the class
  `AdminQuotesScreen` holding `quotes`, `loading` and the three filter
  inputs.

HTTP responses are parameters of the methods that consume them. A 2xx
response with a parsable body is `Ok(body)`. A non-2xx status, a network
error and an unparsable body are all `Failed`, because both screens treat
them alike.

A failed admin fetch leaves `quotes` as it was
(`src/pages/admin/Quotes.tsx:51-58`). The list is empty only until a fetch
succeeds, and `FetchQuotes` keeps the old list.

## Model

| member | source | states |
|---|---|---|
| `Text.Lower` | src/pages/admin/Quotes.tsx:89-91 | lower-casing keeps the length of the string |
| `Text.LowerAt` | src/pages/admin/Quotes.tsx:89-91 | lower-casing maps each character on its own, ASCII letters to lower case |
| `Text.LowerIdempotent` | src/pages/admin/Quotes.tsx:89-91 | lower-casing twice is lower-casing once |
| `Text.LowerOfUpper` | src/pages/admin/Quotes.tsx:89-91 | lower-casing an upper-cased string gives the same as lower-casing the original |
| `Text.ContainsIffOccurs` | src/pages/admin/Quotes.tsx:89-91 | `includes` holds exactly when the needle occurs at some position of the string |
| `Text.ContainsEmpty` | src/pages/admin/Quotes.tsx:89-91 | every string includes the empty string |
| `Text.Upper` | src/components/home/FeaturedProducts.tsx:86 | upper-casing keeps the length of the string |
| `Text.UpperAt` | src/components/home/FeaturedProducts.tsx:86 | upper-casing maps each character on its own, ASCII letters to upper case |
| `Text.UpperIdempotent` | src/components/home/FeaturedProducts.tsx:86 | upper-casing twice is upper-casing once |
| `Text.UpperAppend` | src/components/home/FeaturedProducts.tsx:86 | upper-casing a concatenation upper-cases each part |
| `Gallery.JsRemainder` | src/components/home/FeaturedProducts.tsx:102 | JavaScript `%` by a positive divisor: in `[0, n)` for a non-negative dividend, in `(-n, 0]` for a negative one |
| `Gallery.JsRemainderCongruent` | src/components/home/FeaturedProducts.tsx:102 | the JavaScript remainder differs from the dividend by a multiple of the divisor |
| `Gallery.NextIndex` | src/components/home/FeaturedProducts.tsx:102 | from an in-range index the next index is one more, wrapping from the last image to 0 |
| `Gallery.PrevIndex` | src/components/home/FeaturedProducts.tsx:108 | from an in-range index the previous index is one less, wrapping from 0 to the last image; the `+ length` term keeps it non-negative |
| `Gallery.StepsStayInRange` | src/components/home/FeaturedProducts.tsx:100-110 | both steps keep an index in `[0, n)` |
| `Gallery.StepsAreInverse` | src/components/home/FeaturedProducts.tsx:100-110 | previous undoes next and next undoes previous |
| `Gallery.NextStepsWrap` | src/components/home/FeaturedProducts.tsx:100-104 | k successive next steps from i land on `(i + k) mod n` |
| `Gallery.FullCycle` | src/components/home/FeaturedProducts.tsx:100-104 | n successive next steps return to the starting image |
| `Gallery.VisitsEveryImage` | src/components/home/FeaturedProducts.tsx:100-104 | from the first image, the k-th next step shows image k, so every image is visited in order |
| `FeaturedProducts.DecodeAcceptsBothShapes` | src/components/home/FeaturedProducts.tsx:49-51 | a body with only `products` or only `data` yields that list; a body with neither yields no products |
| `FeaturedProducts.DecodePrefersProducts` | src/components/home/FeaturedProducts.tsx:51 | `products` wins over `data` whenever present, even when empty, since a JavaScript array is truthy |
| `FeaturedProducts.RequestQuote` | src/components/home/FeaturedProducts.tsx:62-92 | a quote hand-off happens exactly when the product is available, and it is about that product |
| `FeaturedProducts.QuoteCodeShape` | src/components/home/FeaturedProducts.tsx:86 | the code is upper(brand) + "-" + upper(model); it is already upper case; brand and model parts can be read back by position |
| `FeaturedProducts.QuoteItemShape` | src/components/home/FeaturedProducts.tsx:64-73 | the item has quantity 1; its image is the first image when that is a non-empty URL, otherwise `/placeholder.svg`; it is never empty |
| `FeaturedProducts.FeaturedProductsScreen.constructor` | src/components/home/FeaturedProducts.tsx:32-36 | initial state: no products, loading, nothing selected, dialog closed, index 0, gallery invariant holds |
| `FeaturedProducts.FeaturedProductsScreen.FetchFeaturedProducts` | src/components/home/FeaturedProducts.tsx:43-60 | an ok response sets the decoded list, a failure keeps the old list; loading is false afterwards in both cases; the gallery invariant is kept |
| `FeaturedProducts.FeaturedProductsScreen.ViewProduct` | src/components/home/FeaturedProducts.tsx:94-98 | selects the product, resets the index to 0 and opens the dialog; the index is then in range for any non-empty image list |
| `FeaturedProducts.FeaturedProductsScreen.NextImage` | src/components/home/FeaturedProducts.tsx:100-104 | with a selected product of more than one image the index takes the next step; otherwise nothing changes; an in-range index stays in range |
| `FeaturedProducts.FeaturedProductsScreen.PrevImage` | src/components/home/FeaturedProducts.tsx:106-110 | with a selected product of more than one image the index takes the previous step; otherwise nothing changes; an in-range index stays in range |
| `FeaturedProducts.FeaturedProductsScreen.ShowImage` | src/components/home/FeaturedProducts.tsx:287-297 | a gallery dot, drawn only for more than one image, sets the index to its own position |
| `FeaturedProducts.FeaturedProductsScreen.CloseDialog` | src/components/home/FeaturedProducts.tsx:255 | dismissing the dialog closes it, changes nothing else and keeps the gallery invariant |
| `FeaturedProducts.FeaturedProductsScreen.RequestQuoteFromCard` | src/components/home/FeaturedProducts.tsx:229-236 | the card button hands off a quote exactly when the product is available; the hand-off is the item and summary of that product |
| `FeaturedProducts.FeaturedProductsScreen.RequestQuoteFromDialog` | src/components/home/FeaturedProducts.tsx:338-348 | the dialog button hands off the selected product exactly when it is available, and then closes the dialog; when disabled nothing changes; the gallery invariant is kept |
| `AdminQuotes.FilterQuotes` | src/pages/admin/Quotes.tsx:87-97 | the displayed list is no longer than the fetched list, and every displayed quote was fetched and matches all three conditions |
| `AdminQuotes.FilterMembership` | src/pages/admin/Quotes.tsx:87-97 | a quote is displayed if and only if it was fetched, its name, email or company includes the search term ignoring case, the status filter is "all" or its status, and the urgency filter is "all" or its urgency |
| `AdminQuotes.FilterIsSubsequence` | src/pages/admin/Quotes.tsx:87 | the displayed list is an order-preserving subsequence of the fetched list |
| `AdminQuotes.NeutralFilterShowsAll` | src/pages/admin/Quotes.tsx:89-96 | with an empty search and both filters at "all" the displayed list is the fetched list |
| `AdminQuotes.SearchIgnoresCase` | src/pages/admin/Quotes.tsx:89-91 | search terms that lower-case alike display the same list |
| `AdminQuotes.UpperCaseSearch` | src/pages/admin/Quotes.tsx:89-91 | typing the search term in capitals displays the same list |
| `AdminQuotes.NarrowingShrinks` | src/pages/admin/Quotes.tsx:89-96 | the list under a search term, a specific status or a specific urgency is a subsequence of the list with the search box cleared or that drop-down at "all", so setting any input back to its neutral value restores what it hid, in order |
| `AdminQuotes.FilterKeepsEveryOccurrence` | src/pages/admin/Quotes.tsx:87-97 | every copy of a matching quote request is kept and every copy of a non-matching one is dropped; with the subsequence law this fixes the displayed list exactly |
| `AdminQuotes.FilterIdempotent` | src/pages/admin/Quotes.tsx:87-97 | filtering the displayed list again changes nothing |
| `AdminQuotes.StatusColor` | src/pages/admin/Quotes.tsx:99-112 | destructive exactly for pending, default exactly for processing and completed, secondary for quoted and for every other value |
| `AdminQuotes.UrgencyColor` | src/pages/admin/Quotes.tsx:114-125 | destructive exactly for emergency, default exactly for urgent, secondary for standard and for every other value |
| `AdminQuotes.PendingCount` | src/pages/admin/Quotes.tsx:144 | the count is at most the number of quotes, and zero exactly when no quote is pending |
| `AdminQuotes.PendingCountIsStatusFilter` | src/pages/admin/Quotes.tsx:144 | the pending count equals the number of quotes the "pending" status filter alone displays |
| `AdminQuotes.PendingCountBoundsFiltered` | src/pages/admin/Quotes.tsx:143-144 | no filter displays more pending quotes than the badge counts |
| `AdminQuotes.DecodeQuotesShapes` | src/pages/admin/Quotes.tsx:53 | a body with a `quotes` list yields that list; a body without one yields no quotes |
| `AdminQuotes.AdminQuotesScreen.constructor` | src/pages/admin/Quotes.tsx:33-37 | initial state: no quotes, loading, empty search, both filters at "all" |
| `AdminQuotes.AdminQuotesScreen.FilteredQuotes` | src/pages/admin/Quotes.tsx:87-97 | the displayed list under the screen's current inputs is no longer than the fetched list and holds only matching fetched quotes |
| `AdminQuotes.AdminQuotesScreen.PendingBadge` | src/pages/admin/Quotes.tsx:144 | the pending badge is at most the number of fetched quotes; it is computed from `quotes` alone, so the filters do not affect it |
| `AdminQuotes.AdminQuotesScreen.FetchQuotes` | src/pages/admin/Quotes.tsx:43-60 | an ok response sets `quotes` to its `quotes` key or empty; a failure keeps the old list; loading is false afterwards |
| `AdminQuotes.AdminQuotesScreen.UpdateQuoteStatus` | src/pages/admin/Quotes.tsx:62-85 | a failed update changes nothing; a successful one only re-fetches, with no local status change |
| `AdminQuotes.AdminQuotesScreen.SetSearchTerm` | src/pages/admin/Quotes.tsx:157 | typing sets the search term and nothing else |
| `AdminQuotes.AdminQuotesScreen.SetStatusFilter` | src/pages/admin/Quotes.tsx:162 | the status drop-down sets the status filter and nothing else |
| `AdminQuotes.AdminQuotesScreen.SetUrgencyFilter` | src/pages/admin/Quotes.tsx:175 | the urgency drop-down sets the urgency filter and nothing else |

## Left out

- Markup and styling are not modelled. This covers the skeleton cards, the empty-state and grid branches, the "Available"/"Out of Stock" badges, the "try adjusting your filters" hint and the displayed gallery image. They are view code.
- The HTTP calls themselves, the base-URL fallback and reading the `adminToken` from local storage are not modelled. They are I/O; each response enters the model as an `Outcome` parameter.
- Toast notifications, `navigate` and the `mailto:` reply are not modelled. They are side effects into libraries outside this code. The navigation payload is returned as the `QuoteSummary` value instead.
- The inside of the shared quote accumulator (`useQuote().addToQuote`) is not modelled. That code is not part of this model; only the item handed to it is.
- `parseFloat(product.price)` is not modelled: `QuoteItem.price` keeps the price text. `formatCurrency` and the date formatting are not modelled either. These are floating point, locale or code outside the model.
- JSON values of the wrong type are not modelled. A `products`, `data` or `quotes` key is either absent/null or a list of well-formed records. A falsy non-null value (`false`, `0`, `""`) would fall through in JavaScript, and a truthy non-array value would be used as a list. Malformed individual records are not represented either.
- Asynchrony is not modelled. A successful status update calls `fetchQuotes` without awaiting it; the model applies the re-fetch's outcome at once. Duplicate requests from double clicks are not represented.
- `Text.Lower`: maps ASCII letters only, whereas JavaScript's `toLowerCase` follows full Unicode case mapping.
- `Text.Upper`: maps ASCII letters only, whereas JavaScript's `toUpperCase` follows full Unicode case mapping, which can change a string's length (`ß` becomes `SS`).
- `Text.LowerOfUpper`: holds only for the ASCII case mapping modelled here. In JavaScript it fails for letters such as `ı` (upper-cases to `I`, which lower-cases to `i`), `ß` (becomes `SS`, then `ss`) and `ſ`.
- `AdminQuotes.UpperCaseSearch`: rests on `Text.LowerOfUpper`, so it holds only for ASCII search terms. In the program, typing a term with `ı`, `ß` or `ſ` in capitals can change the displayed list.
