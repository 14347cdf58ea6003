# Coursework apps: the collection state machines

This project models the in-memory state behind five React Native coursework
apps, and proves properties of that model in Dafny. Each app keeps a few lists
and maps in a context provider or a screen, and changes them with `map`,
`filter` and spread:

- a shopping cart with order history (`Assignment1/EcommerceApp`, module `ShopCart`);
- an expense ledger with totals, per-category and per-month roll-ups, budgets
  and input checks (`Assignment1/ExpenseTrackerApp`, module `ExpenseTracker`);
- a cart whose quantities are clamped to at least 1, with an address check
  at checkout (`Assignment2/EcommerceApp`, module `ClampedCart`);
- ticket bookings with sequential ids, a quantity stepper, a discount code and
  a search (`Assignment1/TicketBookingApp`, module `TicketBooking`);
- a social feed with users, posts, likes, comments, follows, messages,
  notifications, tag parsing and a chat filter
  (`Assignment1/SocialMediaApp`, module `SocialFeed`).

Each provider or screen whose state the app replaces step by step is a
`class`. Its fields are that state, and each method sets the new state to a
pure transition function of the old one. The properties are proved as lemmas
about those functions. Three modules are shared:

- `Collections` defines sums, filters, first-appearance de-duplication and
  per-key bucket sums over sequences.
- `Text` models the JavaScript string built-ins the apps call: `trim`,
  `toLowerCase`, `includes`, `split` on one character, `replace` of one
  character, `slice(0, n)` and the default `sort` order.
- `JsNumber` models `Number(...)` (behind `isNaN`) and `parseFloat` over
  decimal literals.

Money is `real`. Ids that the apps build with `String(n)` are kept as the
number `n`. Timestamps, `Date.now()` ids and `Math.random` values are method
parameters.

`ShopCart.CartAdd` follows the code for a quantity of zero or less: the
quantity is still added to an existing entry, or the product is appended.
Only `updateQuantity` treats such a quantity as a removal.

## Model

| member | source | states |
|---|---|---|
| ShopCart.AddToCartExisting | Assignment1/EcommerceApp/App.js:27-32 | adding a product already in the cart (ids distinct) adds `quantity` to that one entry; length, order and every other entry are unchanged |
| ShopCart.AddToCartNew | Assignment1/EcommerceApp/App.js:33-35 | adding a product whose id is not in the cart appends `{product, quantity}` at the end; the length grows by one |
| ShopCart.AddToCartDistinct | Assignment1/EcommerceApp/App.js:27-36 | `addToCart` keeps the cart's ids pairwise distinct |
| ShopCart.UpdateQuantityDistinct | Assignment1/EcommerceApp/App.js:38-44 | `updateQuantity` keeps the cart's ids pairwise distinct |
| ShopCart.UpdateQuantityRemoves | Assignment1/EcommerceApp/App.js:39-40 | a quantity of zero or less removes the entry with that id and keeps the others in their order |
| ShopCart.UpdateQuantitySets | Assignment1/EcommerceApp/App.js:41-43 | a positive quantity replaces only that entry's quantity; the length is unchanged |
| ShopCart.UpdateQuantityUnknown | Assignment1/EcommerceApp/App.js:38-44 | an id that is not in the cart leaves the cart as it was, whatever the quantity |
| ShopCart.TotalPriceOrderFree | Assignment1/EcommerceApp/App.js:142 | the total is the same for any reordering of the entries, and is 0 for an empty cart |
| ShopCart.TotalPriceNonneg | Assignment1/EcommerceApp/App.js:183 | with non-negative prices and quantities the total is not negative |
| ShopCart.AddToCartTotal | Assignment1/EcommerceApp/App.js:27-36 | after `addToCart` the total grows by the line price times `quantity`: the stored line's price for a known id, the product's own price for a new one |
| ShopCart.UpdateQuantityTotal | Assignment1/EcommerceApp/App.js:38-44 | after `updateQuantity` the total loses the old line amount and gains the new one, or nothing when the entry is removed |
| ShopCart.SearchSpec | Assignment1/EcommerceApp/App.js:61-63 | the result holds exactly the products whose lower-cased name contains the lower-cased query, in catalogue order; searching a concatenation concatenates the results |
| ShopCart.SearchEmpty | Assignment1/EcommerceApp/App.js:61-63 | the empty query returns every product |
| ShopCart.SearchIgnoresCase | Assignment1/EcommerceApp/App.js:61-63 | lower-casing the query does not change the result |
| ShopCart.CheckoutGates | Assignment1/EcommerceApp/App.js:173-203 | adding always enables "Checkout"; an update disables it exactly when the quantity is 0 or less and every entry has the id; "Place Order" is enabled only with "Checkout", and never on the emptied cart an order leaves |
| ShopCart.CartProvider.constructor | Assignment1/EcommerceApp/App.js:23-25 | the cart and the order history start empty |
| ShopCart.CartProvider.AddToCart | Assignment1/EcommerceApp/App.js:27-36 | the cart becomes `CartAdd` of the old cart; orders are unchanged; distinct ids are kept |
| ShopCart.CartProvider.UpdateQuantity | Assignment1/EcommerceApp/App.js:38-44 | the cart becomes `CartUpdate` of the old cart; orders are unchanged; distinct ids are kept |
| ShopCart.CartProvider.PlaceOrder | Assignment1/EcommerceApp/App.js:46-49 | exactly one order with the items, the shipping details and status "Pending" is appended after the earlier ones, and the cart is empty |
| ExpenseTracker.Ledger.constructor | Assignment1/ExpenseTrackerApp/App.js:16-20 | the theme starts "light", with no transactions, no budgets and the preset profile |
| ExpenseTracker.Ledger.ToggleTheme | Assignment1/ExpenseTrackerApp/App.js:50-54 | the theme becomes the other of light and dark; nothing else changes |
| ExpenseTracker.Ledger.AddTransaction | Assignment1/ExpenseTrackerApp/App.js:56-60 | the transactions become `[t]` followed by the old list; nothing else changes |
| ExpenseTracker.Ledger.UpdateBudgets | Assignment1/ExpenseTrackerApp/App.js:62-65 | the budgets become the given map; nothing else changes |
| ExpenseTracker.Ledger.UpdateUser | Assignment1/ExpenseTrackerApp/App.js:67-70 | the profile becomes the given one; nothing else changes |
| ExpenseTracker.Ledger.HandleAdd | Assignment1/ExpenseTrackerApp/App.js:138-152 | with the corrected check of the first Findings row (the code as written also accepts a blank amount): a transaction is added exactly when the amount text holds a number; it carries the parsed amount and goes first; otherwise nothing changes |
| ExpenseTracker.Ledger.HandleSetBudget | Assignment1/ExpenseTrackerApp/App.js:303-312 | with the corrected check of the second Findings row (the code as written also accepts a blank limit): the budgets change exactly when `SetBudget` accepts the input, and then become its result; otherwise nothing changes |
| ExpenseTracker.AddTransactionTotals | Assignment1/ExpenseTrackerApp/App.js:92-98 | a new transaction adds its amount to the income total or to the expense total, by its type, and moves the balance up or down by it |
| ExpenseTracker.CategoriesSpec | Assignment1/ExpenseTrackerApp/App.js:226 | the categories are distinct, are exactly the categories of the transactions, and come in first-appearance order |
| ExpenseTracker.CategoryDataSpec | Assignment1/ExpenseTrackerApp/App.js:227-235 | each slice's value is its category's expense sum and is positive; names are distinct; a category has a slice exactly when it occurs and its expense sum is positive |
| ExpenseTracker.CategoryValueIsBucket | Assignment1/ExpenseTrackerApp/App.js:228-231 | a category's value is the sum of the expense amounts with that category |
| ExpenseTracker.CategoryValueNonneg | Assignment1/ExpenseTrackerApp/App.js:227-235 | with non-negative expense amounts every category value is non-negative |
| ExpenseTracker.PieSumIsTotalExpenses | Assignment1/ExpenseTrackerApp/App.js:227-235 | with non-negative expense amounts the pie slices add up to the expense total |
| ExpenseTracker.MonthlyData | Assignment1/ExpenseTrackerApp/App.js:237-243 | the loop yields the distinct month keys (`date.slice(0, 7)` of the expenses) in first-appearance order and a map from each of them to that month's expense sum |
| ExpenseTracker.MonthlyDataStep | Assignment1/ExpenseTrackerApp/App.js:239-242 | one accumulator step keeps the keys and buckets equal to those of the expenses read so far, for a month seen before and for a new one |
| ExpenseTracker.MonthlyBucketsSum | Assignment1/ExpenseTrackerApp/App.js:237-243 | the monthly buckets add up to the expense total |
| ExpenseTracker.ChartLabelsSpec | Assignment1/ExpenseTrackerApp/App.js:246 | the labels are at most six month keys, sorted, distinct, all keys; every key left out sorts below every label |
| ExpenseTracker.LineChart | Assignment1/ExpenseTrackerApp/App.js:245-248 | the labels are the sorted last six month keys, and each data point is its month's expense sum |
| ExpenseTracker.BlankAmountAccepted | Assignment1/ExpenseTrackerApp/App.js:139-145 | the check as written lets a blank amount through, and the stored amount is NaN |
| ExpenseTracker.NumericInput | Assignment1/ExpenseTrackerApp/App.js:139-145 | an amount is refused exactly when it is blank or not a number; an accepted one is the same finite value under `Number` and `parseFloat` |
| ExpenseTracker.NumericInputRefines | Assignment1/ExpenseTrackerApp/App.js:139-145 | the corrected check accepts a subset of what the written one accepts, with the same value; the only inputs it adds to the refusals are non-empty blank strings |
| ExpenseTracker.BlankLimitAccepted | Assignment1/ExpenseTrackerApp/App.js:303-308 | the budget check as written lets a blank limit through, and stores NaN |
| ExpenseTracker.SetBudgetSpec | Assignment1/ExpenseTrackerApp/App.js:303-309 | refused exactly for an empty category or a blank or non-numeric limit; otherwise the category maps to `parseFloat` of the limit and every other key keeps its value |
| ExpenseTracker.ToggleTwice | Assignment1/ExpenseTrackerApp/App.js:50-54 | toggling twice gives the theme back |
| JsNumber.ParseFloatAgrees | Assignment1/ExpenseTrackerApp/App.js:139-145 | on non-blank text that `Number` reads as a number, `parseFloat` gives the same value |
| JsNumber.BlankDisagrees | Assignment1/ExpenseTrackerApp/App.js:139-145 | on blank non-empty text `Number` gives 0 but `parseFloat` gives NaN |
| Text.TrimEmpty | Assignment2/EcommerceApp/App.js:199 | `trim` gives the empty string exactly when the text is all whitespace |
| Text.TrimShape | Assignment2/EcommerceApp/App.js:199 | `trim` keeps one contiguous piece of the text with only whitespace around it; the piece neither starts nor ends with whitespace; it is empty exactly when the text is all whitespace |
| Text.SortDistinct | Assignment1/ExpenseTrackerApp/App.js:246 | sorting keeps exactly the same keys, and distinct keys stay distinct |
| Text.SplitJoin | Assignment1/SocialMediaApp/App.js:186 | joining non-empty-list pieces that do not contain the separator and splitting the result on it gives back the pieces, so `split` loses nothing between separators |
| ClampedCart.CartUpdateSpec | Assignment2/EcommerceApp/App.js:126-135 | from positive quantities, the length and products are kept, matching entries move to `max(1, q + delta)`, others keep their quantity, and all stay positive, so the filter removes nothing |
| ClampedCart.PlusThenMinus | Assignment2/EcommerceApp/App.js:131 | from quantities of at least 1, "+" then "-" gives the cart back |
| ClampedCart.MinusAtOne | Assignment2/EcommerceApp/App.js:131 | "-" on entries already at 1 changes nothing |
| ClampedCart.CartUpdateAt | Assignment2/EcommerceApp/App.js:126-135 | with the id at one place only, the step replaces just that entry's quantity |
| ClampedCart.CartUpdateTotal | Assignment2/EcommerceApp/App.js:124-135 | the total moves by the price times how far the clamped quantity moved |
| ClampedCart.CartUpdateUnknown | Assignment2/EcommerceApp/App.js:126-135 | a step on an id that is not in the cart changes nothing |
| ClampedCart.StepKeepsCheckout | Assignment2/EcommerceApp/App.js:179-180 | quantity steps never change whether checkout is enabled (enabled exactly when the cart is not empty) |
| ClampedCart.PlaceOrder | Assignment2/EcommerceApp/App.js:198-204 | refused exactly when the address is all whitespace; otherwise the confirmation carries the cart, the total, the address as typed and the payment method |
| ClampedCart.CartScreen.constructor | Assignment2/EcommerceApp/App.js:122 | the cart is the initial cart; with a positive handed-over quantity it holds at most one positive entry |
| ClampedCart.CartScreen.UpdateQuantity | Assignment2/EcommerceApp/App.js:126-136 | the cart becomes `CartUpdate` of the old one; its length and positive quantities are kept |
| TicketBooking.TicketProvider.constructor | Assignment1/TicketBookingApp/App.js:90-93 | the preset user, no bookings and the six catalogue items |
| TicketBooking.TicketProvider.SetUser | Assignment1/TicketBookingApp/App.js:91 | the user is replaced; the bookings are unchanged |
| TicketBooking.TicketProvider.BookTicket | Assignment1/TicketBookingApp/App.js:95-98 | a booking numbered one past the count, with status "Upcoming", goes first; the earlier ones follow unchanged; sequential numbering is kept |
| TicketBooking.SequentialIdsDistinct | Assignment1/TicketBookingApp/App.js:96-97 | with sequential numbering all booking ids are distinct and lie in 1..count |
| TicketBooking.BookKeepsSequential | Assignment1/TicketBookingApp/App.js:95-97 | prepending the booking numbered one past the count keeps the numbering sequential |
| TicketBooking.DefaultTimeSpec | Assignment1/TicketBookingApp/App.js:202 | the default time is the first showtime, else the departure, else the date, else empty, each skipped when missing or empty |
| TicketBooking.CatalogueDefaults | Assignment1/TicketBookingApp/App.js:12-85 | every catalogue item has a non-empty default time, and a default seat exactly when it has seats |
| TicketBooking.StepperSpec | Assignment1/TicketBookingApp/App.js:204-263 | from at least 1, "-" and "+" keep the quantity at least 1, "-" undoes "+", "-" does nothing exactly at 1, and each step moves the total by one ticket's price |
| TicketBooking.BookingScreen.constructor | Assignment1/TicketBookingApp/App.js:202-204 | the default time (a string, possibly empty) and the default seat are selected, and the quantity is 1 |
| TicketBooking.BookingScreen.Minus | Assignment1/TicketBookingApp/App.js:259 | the quantity is decremented above 1 only; the selection is kept |
| TicketBooking.BookingScreen.Plus | Assignment1/TicketBookingApp/App.js:263 | the quantity goes up by one; the selection is kept |
| TicketBooking.BookingScreen.SelectTime | Assignment1/TicketBookingApp/App.js:240-247 | the time is replaced, including by the placeholder's `null` (`None`); the seat and quantity are kept |
| TicketBooking.BookingScreen.SelectSeat | Assignment1/TicketBookingApp/App.js:249-256 | the seat is replaced, including by the placeholder's `null` (`None`); the time and quantity are kept |
| TicketBooking.BookingScreen.HandleBook | Assignment1/TicketBookingApp/App.js:218-224 | the details carry the time and seat as selected (either may be `null`), the quantity and price times quantity, and are booked through the provider |
| TicketBooking.FinalPriceSpec | Assignment1/TicketBookingApp/App.js:295 | the final price is the total for other codes and four fifths of it for the code; for a non-negative total it lies between 0 and the total |
| TicketBooking.SearchSpec | Assignment1/TicketBookingApp/App.js:154-157 | an item is kept exactly when its title or type contains the query case-insensitively and the type filter is "All" or its type; the order is kept |
| TicketBooking.SearchEdges | Assignment1/TicketBookingApp/App.js:154-173 | the picker's null placeholder matches nothing; the empty query with "All" keeps everything |
| SocialFeed.SocialState.constructor | Assignment1/SocialMediaApp/App.js:24-28 | nobody is signed in; the preset posts and users; no messages and no notifications |
| SocialFeed.SocialState.Login | Assignment1/SocialMediaApp/App.js:30-34 | true exactly when some user matches both name and password; the current user becomes the first match only then |
| SocialFeed.FindUser | Assignment1/SocialMediaApp/App.js:31 | finds the first user matching both name and password, or none when no user matches |
| SocialFeed.SocialState.Signup | Assignment1/SocialMediaApp/App.js:36-42 | false with nothing changed when the name is taken; otherwise a user numbered one past the count, with no posts and zero counters, is appended and signed in |
| SocialFeed.SignupKeepsInvariants | Assignment1/SocialMediaApp/App.js:36-42 | a name that is not taken keeps usernames unique and user numbering sequential |
| SocialFeed.SocialState.CreatePost | Assignment1/SocialMediaApp/App.js:44-49 | a post numbered one past the count, with no likes or comments, goes first in the feed and in the author's own list; other users are unchanged; one notification is prepended |
| SocialFeed.NewPostKeepsIds | Assignment1/SocialMediaApp/App.js:45-46 | the new post's id keeps post ids distinct |
| SocialFeed.NotifyKeepsSequential | Assignment1/SocialMediaApp/App.js:48 | prepending a notification numbered one past the count keeps them numbered from the newest down to 1 |
| SocialFeed.SocialState.LikePost | Assignment1/SocialMediaApp/App.js:51-57 | the feed becomes `Liked` of the old one; a notification is added only when the author is someone else |
| SocialFeed.LikedSpec | Assignment1/SocialMediaApp/App.js:51-57 | with distinct ids exactly one post gets one more like, the likes in all grow by one, and ids stay valid |
| SocialFeed.FindPost | Assignment1/SocialMediaApp/App.js:53 | the first post with the id (no earlier post has it), or none when no post has it |
| SocialFeed.FindPostAt | Assignment1/SocialMediaApp/App.js:53 | with distinct ids the post found is the one at its index |
| SocialFeed.SocialState.CommentPost | Assignment1/SocialMediaApp/App.js:59-65 | the feed becomes `Commented` with "name: comment"; a notification is added only when the author is someone else |
| SocialFeed.CommentedSpec | Assignment1/SocialMediaApp/App.js:59-65 | with distinct ids exactly one post gets the comment at its end, the comments in all grow by one, and ids stay valid |
| SocialFeed.SocialState.SendMessage | Assignment1/SocialMediaApp/App.js:67-71 | the message numbered one past the count is appended, and a notification is prepended |
| SocialFeed.SocialState.FollowUser | Assignment1/SocialMediaApp/App.js:73-80 | the users become `Followed`; the notification names the first user with that id |
| SocialFeed.FollowedSpec | Assignment1/SocialMediaApp/App.js:73-80 | ids, names, passwords and posts are unchanged; the target's followers grow by one and the follower's following by one unless it follows itself |
| SocialFeed.UnfollowedSpec | Assignment1/SocialMediaApp/App.js:82-87 | ids, names, passwords and posts are unchanged; the target loses one follower and the follower one following unless it unfollows itself |
| SocialFeed.SocialState.UnfollowUser | Assignment1/SocialMediaApp/App.js:82-87 | the users become `Unfollowed`; nothing else changes |
| SocialFeed.UnfollowUndoesFollow | Assignment1/SocialMediaApp/App.js:73-87 | unfollowing right after following gives the same users back |
| SocialFeed.FollowedKeepsInvariants | Assignment1/SocialMediaApp/App.js:73-80 | following keeps usernames unique and user numbering sequential |
| SocialFeed.UnfollowedKeepsInvariants | Assignment1/SocialMediaApp/App.js:82-87 | unfollowing keeps usernames unique and user numbering sequential |
| SocialFeed.WithPostKeepsInvariants | Assignment1/SocialMediaApp/App.js:47 | adding a post to its author keeps usernames unique and user numbering sequential |
| SocialFeed.WithPostAt | Assignment1/SocialMediaApp/App.js:47 | with users numbered from 1, the new post is put in front of the posts of the user at position `authorId - 1`, and every other user is unchanged |
| SocialFeed.InitialStateValid | Assignment1/SocialMediaApp/App.js:7-18 | the preset users have unique names and sequential ids, and the preset posts have valid ids |
| SocialFeed.IsFollowingSpec | Assignment1/SocialMediaApp/App.js:212-227 | `isFollowing` reads only the signed-in user's own counter, so the button unfollows on every profile once that counter is positive; in the preset data Alice on Charlie's profile takes Charlie from 12 to 11 followers |
| SocialFeed.FollowMakesFollowing | Assignment1/SocialMediaApp/App.js:212-227 | after following anyone else, the button reads "Unfollow" on every profile |
| SocialFeed.ParseTagsWellFormed | Assignment1/SocialMediaApp/App.js:186 | every parsed tag is non-empty, has no space and neither starts nor ends with whitespace |
| SocialFeed.ParseTagsKeepsWords | Assignment1/SocialMediaApp/App.js:186 | each word that leaves something after dropping its first `#` and trimming yields a tag |
| SocialFeed.TokenShape | Assignment1/SocialMediaApp/App.js:186 | a word without spaces gives a token that, when not empty, is a well-formed tag |
| SocialFeed.SocialState.HandlePost | Assignment1/SocialMediaApp/App.js:184-190 | posts exactly when there is content or a media URL; then the new post (content, the typed media or the default picture, parsed tags) goes in front of the unchanged feed and of the author's own posts, and the notification is prepended; otherwise nothing changes |
| SocialFeed.ChatViewSpec | Assignment1/SocialMediaApp/App.js:252 | the chat holds exactly the messages between the pair, in sending order; both sides see the same chat; a new message appears at its end exactly when it is between them |

## Left out

- Rendering, styles, navigation and route parameters are presentation. So are pictures, avatars, ratings, colours and the activity indicator.
- AsyncStorage loading and saving in the expense tracker, and the axios product fetch, are I/O.
- `Date.now()` ids, `new Date()` timestamps and `Math.random` values are parameters of the methods that use them.
- The chart colours and the random order number are not modelled.
- Floating point is not modelled. Money and amounts are exact `real`s, so rounding and `toFixed(2)` display are out.
- `toLowerCase` is modelled on the ASCII letters only. Strings are sequences of code points, not UTF-16 units.
- `Number` and `parseFloat` are modelled on decimal literals with an optional sign, fraction and exponent. `Infinity`, hexadecimal, binary and octal forms, and overflow to infinity are not modelled.
- ExpenseTracker.MonthlyData: a month key that names an inherited property of plain objects, such as `"valueOf"` (an expense whose date was typed as `"valueOf..."`), makes `acc[month] || 0` return the inherited function, and adding the amount then builds a string. The model treats the accumulator as a plain map.
- ExpenseTracker.MonthlyData: the written `acc[month] || 0` restarts a bucket that holds NaN. The model's amounts are always numbers, because the corrected input check refuses NaN.
- React's batched and stale-closure `setState` is not modelled. Each provider operation is one atomic step on the current state.
- SocialFeed.SocialState.CreatePost, LikePost, CommentPost, SendMessage, FollowUser and UnfollowUser require a signed-in user. The app dereferences `user` in each of them and would throw without one.
- LikePost, CommentPost and FollowUser also require that the post or user exists, because the app reads a field of the lookup's result.
- SocialFeed.IsFollowing models the counter test as written. A per-pair follow relation does not exist in the app and is not modelled.
- The profile screens and the order history screens only display state, or forward it through the operations above. They are not modelled separately.
- Booking status changes and payment handling after `finalPrice` only navigate or alert, and are not modelled.

## Findings

| source | as written | input that shows it | evidently intended | confidence | as-written member | corrected member |
|---|---|---|---|---|---|---|
| Assignment1/ExpenseTrackerApp/App.js:139-145 | `!amount \|\| isNaN(amount)` lets a whitespace-only amount through, since `Number(" ")` is 0; `parseFloat(" ")` then stores NaN | amount `" "` | refuse blank amounts as well as empty ones | not executed | ExpenseTracker.BlankAmountAccepted | ExpenseTracker.NumericInput |
| Assignment1/ExpenseTrackerApp/App.js:303-308 | `!limit \|\| isNaN(limit)` lets a whitespace-only limit through, and the budget is set to NaN | category `"Food"`, limit `" "` | refuse blank limits | not executed | ExpenseTracker.BlankLimitAccepted | ExpenseTracker.SetBudgetSpec |
