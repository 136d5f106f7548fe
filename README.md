# FlexBase marketplace, chat and social core in Dafny

FlexBase is a sneaker-collector site. Users keep a collection of items, post
pictures, follow one another and chat. Items can also be sold on a
marketplace. This project models the parts of FlexBase that decide what
happens to that data, and proves properties of the model:

- **The sale engine** (routes/marketplace.js, routes/notifications.js and the
  Listing, Transaction, Collection and Notification schemas). A seller lists a
  collection. A buyer either buys it at once (`purchaseWithTransaction`) or
  submits a payment claim (`purchaseWithoutTransaction`). The seller then
  confirms the claim, which hands the item to the buyer, or rejects it, which
  puts the listing back on sale. The store is a value `MarketDb.Db`. Each
  handler is a function from a store to a response and a new store
  (`ListingRoutes`, `PurchaseRoutes`, `SettlementRoutes`). The class
  `MarketEngine.Marketplace` runs the same handlers step by step on its
  fields, and each of its methods is proved equal to its function.
  `MarketInvariants` proves that every handler keeps the store invariant:
  - identifiers are fresh;
  - the partial unique index "one active listing per collection" holds;
  - every stored document passes its schema. The Transaction schema is the
    corrected one of the findings below, where a payment method is optional.
    The store invariant, the direct purchase and the saves of a confirmation
    or rejection check that schema. A transaction that carries a payment
    method, as every claim does, passes it exactly when it passes the schema
    as written (`TransactionModel.ValidationsAgreeWithMethod`).

  It also proves that no handler shortens an ownership history.
  `MarketScenarios` relates several calls: the claim's path from pending to
  sold or rejected, and what the missing status guards allow.
- **The chat server** (routes/chat.js): the chat list and the community
  room, paged history with read receipts, sending with notification
  previews, private chats and clearing. The pure rules are in `ChatRules`.
  The class `ChatRoutes.ChatStore` runs the handlers, with the corrected
  notification preview of the findings below.
- **The social server** (routes/index.js): the notification helper; follow,
  unfollow and the two list removals; the like toggle and comments; the
  regex escaping of user search; the previous-owners form zip. The list
  edits are in `SocialLists`, the input shaping in `SocialForms`, and the
  class `SocialRoutes.SocialStore` runs the handlers.
- **The client pages.** Each page keeps its state in a class whose methods
  follow the event handlers; pure step functions say what each handler does.
  - The chat page (public/js/chat.js) is `ChatClient.ChatPage`, with the
    cookie reader in `ChatCookie`. It runs the corrected room switch and
    send failure of the findings below.
  - The notifications page (public/js/notifications.js) is
    `NotificationsClient.NotificationsPage`.
  - The profile page's sliders and follow buttons (public/js/profile.js) are
    `ProfileClient.Slider` and `ProfileClient.ProfilePage`.
  - The add-collection wizard (public/js/collection-add.js) is
    `CollectionAdd.CollectionForm`.
  - The post uploader (public/js/postUploader.js) is `PostUploader`.
  - The relative-time labels the pages share are in `TimeAgo`.

`Text` models the JavaScript string operations the code relies on: `trim`,
`toLowerCase`, `substring`, `String(n)` and `parseInt`. A string is a
sequence of Unicode characters. `length` and `substring` count UTF-16 code
units, as JavaScript does, so a character outside the Basic Multilingual
Plane counts twice. `trim` removes ECMAScript's white space and line
terminators. `parseInt` without a radix reads a `0x` prefix in base 16.

Where the design notes and the code disagree, the model follows the code:

- The notes call for status guards on cancelling a listing and on rejecting
  a payment. The code has neither: a pending or sold listing can be
  cancelled, and a completed sale can be rejected. See
  `MarketScenarios.CancelPendingThenRelist` and
  `MarketScenarios.RejectAfterConfirmRelists`.
- The notes ask for at most one open listing per collection. The code's
  unique index covers only `active` listings, so pending listings are not
  constrained. See `ListingModel.PendingNotConstrained`.
- The notes give a new transaction the default state "submitted". The schema
  default is `pending`; the claim path sets `payment_submitted` itself.

## Model

| member | source | states |
|---|---|---|
| ListingModel.ParsePaymentType | models/Listing.js:11-15 | a payment-method kind is accepted exactly when it is one of the five enum names |
| ListingModel.PaymentTypeRoundTrip | models/Listing.js:13 | every kind is accepted back under its own name |
| ListingModel.CastPaymentMethods | models/Listing.js:10-18 | casting succeeds exactly when every entry names an enum kind and has non-empty details, and it keeps the entries in order |
| ListingModel.NewListingValid | models/Listing.js:3-27 | a new listing is `active` with no views, and is schema-valid when its title is non-empty and its methods were cast |
| ListingModel.WriteKeepsActiveUnique | models/Listing.js:33-39 | writing a listing keeps the partial unique index when it is not active, or when no other listing of its collection is active |
| ListingModel.PendingNotConstrained | models/Listing.js:37 | two pending listings of one collection satisfy the index |
| ListingModel.TwoActiveViolate | models/Listing.js:33-39 | two active listings of one collection violate the index |
| TransactionModel.MissingPaymentMethodInvalid | models/Transaction.js:10-13 | under the schema as written, a transaction without a payment method never validates, while the corrected schema accepts it |
| TransactionModel.ValidationsAgreeWithMethod | models/Transaction.js:10-13 | the written and the corrected validation agree on every transaction that carries a payment method |
| TransactionModel.NewTransactionDefaults | models/Transaction.js:21-33 | a new transaction is `pending` with no timestamps or reason, and passes the written schema exactly when it carries a method with a kind and details |
| CollectionModel.NewCollectionDefaults | models/Collection.js:3-32 | a new collection is unlisted with no transfer history, and is valid exactly when its brand and every previous owner's label are non-empty |
| CollectionModel.TransferredEffects | routes/marketplace.js:523-543 | a transfer appends exactly one previous owner and one transfer record, keeps the old entries, moves the item to the buyer and unlists it |
| NotificationModel.ParseType | models/Notification.js:13-32 | a type name is accepted exactly when it is one of the schema's type names, and the accepted kind has that name |
| NotificationModel.TypeNameRoundTrip | models/Notification.js:15-30 | names and kinds correspond one to one |
| NotificationModel.NewNotificationDefaults | models/Notification.js:33-74 | a new notification is unread and addressed to its recipient, and is valid exactly when its message is non-empty |
| MarketDb.HistoriesPreservedTrans | models/Collection.js:10-30 | "no document deleted, no history shortened" composes along a run of handlers |
| ListingRoutes.CreateListing | routes/marketplace.js:71-143 | 400 exactly for a missing field, no payment methods, or a collection of the caller's that is already listed; 403 exactly when the collection is missing or not the caller's; a client error writes nothing; success exactly when the request is accepted, its methods cast, no listing of the collection is active and the updated collection validates, and then a fresh listing is stored and the collection flagged listed |
| ListingRoutes.CancelListing | routes/marketplace.js:147-177 | 404 exactly for a missing listing, 403 exactly for another seller's listing, no write on failure; otherwise the listing is cancelled and its collection unlisted, whatever the listing's status |
| ListingRoutes.ViewListing | routes/marketplace.js:48-67 | fails with 404 exactly for a missing listing; otherwise returns it and adds one view, changing nothing else |
| ListingRoutes.SelectListings | routes/marketplace.js:16-45 | the result holds exactly the ids of the given sort order that are stored, active and pass the brand and price filters |
| ListingRoutes.SelectListingsOfStore | routes/marketplace.js:16-45 | over a sort order that ranks every stored listing once, the result is exactly the stored active listings that pass the filters, each once |
| ListingRoutes.SelectKeepsDistinct | routes/marketplace.js:16-45 | filtering an order without repetitions repeats nothing |
| ListingRoutes.DistinctCons | routes/marketplace.js:16-45 | an id not in a list without repetitions can go in front of it |
| ListingRoutes.SelectIsSubsequence | routes/marketplace.js:22-38 | the filters keep the store's order |
| ListingRoutes.ToLowerIdempotent | routes/marketplace.js:31 | lower-casing twice is lower-casing once |
| ListingRoutes.BrandMatchIgnoresQueryCase | routes/marketplace.js:31 | the brand filter gives the same answer for a query and its lower-cased form |
| ListingRoutes.OwnBrandMatches | routes/marketplace.js:31 | a collection's own brand selects its listing |
| ListingRoutes.NaNBoundSelectsNothing | routes/marketplace.js:33-38 | a price bound that is not a number selects no listing |
| PurchaseRoutes.PurchaseGuard | routes/marketplace.js:583-607 | 404 exactly for a missing or non-active listing, or for another seller's listing whose collection or owner is missing; 400 exactly when the caller sells the active listing |
| PurchaseRoutes.SubmitPayment | routes/marketplace.js:577-675 | a failed guard answers its error and an incomplete payment method 400, both writing nothing; on success a `payment_submitted` transaction is stored under a fresh id, the listing becomes `pending`, the seller is notified and the receipt names the price and owner |
| PurchaseRoutes.PurchaseWithTransactionAsWritten | routes/marketplace.js:511-520 | as written, the direct purchase never succeeds and writes nothing: its transaction fails validation |
| PurchaseRoutes.PurchaseWithTransaction | routes/marketplace.js:472-574 | corrected: on success one completed transaction is stored, the item moves to the buyer and the listing is sold; any failure writes nothing |
| PurchaseRoutes.DirectPurchaseDiffers | routes/marketplace.js:511-520 | once the guards pass, the corrected path succeeds and the written one answers 500 |
| SettlementRoutes.SetListingStatus | routes/notifications.js:112 | only the named listing's status changes |
| SettlementRoutes.ConfirmPayment | routes/notifications.js:53-135 | 404, 403 and 400 (not `payment_submitted`) each exactly on their condition, and a client error writes nothing; on success the item is transferred, the transaction completed, the listing sold and the buyer notified |
| SettlementRoutes.ReasonText | routes/notifications.js:155 | the stored reason is never empty, and a given non-empty reason is kept |
| SettlementRoutes.RejectPayment | routes/notifications.js:138-176 | 404 and 403 exactly on their conditions, and a client error writes nothing; on success the transaction is rejected with its reason whatever its status, the listing is reactivated and the buyer notified |
| SettlementRoutes.MarkRead | routes/notifications.js:179-186 | always succeeds; marks the one notification read and changes nothing else |
| MarketEngine.Marketplace.constructor | routes/marketplace.js:3-6 | an empty store satisfies the invariant |
| MarketEngine.Marketplace.Restore | routes/marketplace.js:566 | aborting the session puts back the saved store |
| MarketEngine.Marketplace.CreateListing | routes/marketplace.js:71-143 | answers and leaves the store as `ListingRoutes.CreateListing` does |
| MarketEngine.Marketplace.CancelListing | routes/marketplace.js:147-177 | answers and leaves the store as `ListingRoutes.CancelListing` does |
| MarketEngine.Marketplace.ViewListing | routes/marketplace.js:48-67 | answers and leaves the store as `ListingRoutes.ViewListing` does |
| MarketEngine.Marketplace.Purchase | routes/marketplace.js:458-469 | corrected: dispatches on the transactions flag to the corrected direct path `PurchaseRoutes.PurchaseWithTransaction` or to the claim path `PurchaseRoutes.SubmitPayment` |
| MarketEngine.Marketplace.PurchaseAtomically | routes/marketplace.js:472-574 | corrected: answers and leaves the store as the corrected `PurchaseRoutes.PurchaseWithTransaction` does, undoing its writes on failure |
| MarketEngine.Marketplace.SubmitClaim | routes/marketplace.js:577-675 | answers and leaves the store as `PurchaseRoutes.SubmitPayment` does |
| MarketEngine.Marketplace.ConfirmPayment | routes/notifications.js:53-135 | answers and leaves the store as `SettlementRoutes.ConfirmPayment` does |
| MarketEngine.Marketplace.RejectPayment | routes/notifications.js:138-176 | answers and leaves the store as `SettlementRoutes.RejectPayment` does |
| MarketEngine.Marketplace.MarkRead | routes/notifications.js:179-186 | answers and leaves the store as `SettlementRoutes.MarkRead` does |
| MarketInvariants.CollectionWriteKeepsValid | models/Collection.js:3-32 | replacing a collection by a valid one keeps every document valid |
| MarketInvariants.DeactivateKeepsIndex | routes/marketplace.js:161-162 | setting a listing to a non-active status keeps the unique index |
| MarketInvariants.ListingWritesKeepWf | routes/marketplace.js:114-130 | the writes of a successful create keep the store invariant |
| MarketInvariants.ClaimWritesKeepWf | routes/marketplace.js:620-652 | the writes of an accepted claim keep the store invariant |
| MarketInvariants.TransferWritesKeepWf | routes/marketplace.js:511-548 | the writes of the direct transfer keep the store invariant |
| MarketInvariants.ConfirmWritesKeepWf | routes/notifications.js:83-122 | the writes of a confirmation keep the store invariant |
| MarketInvariants.RejectionWriteKeepsWf | routes/notifications.js:153-156 | saving the rejection keeps the store invariant |
| MarketInvariants.ReactivationWritesKeepWf | routes/notifications.js:159-169 | reactivating a listing the index accepts keeps the store invariant |
| MarketInvariants.CreateKeepsHistories | routes/marketplace.js:71-143 | create deletes nothing and shortens no history |
| MarketInvariants.CancelKeepsHistories | routes/marketplace.js:147-177 | cancel deletes nothing and shortens no history |
| MarketInvariants.SubmitKeepsHistories | routes/marketplace.js:577-675 | a claim deletes nothing and shortens no history |
| MarketInvariants.RejectKeepsHistories | routes/notifications.js:138-176 | reject deletes nothing and shortens no history |
| MarketInvariants.DirectPurchaseKeepsHistories | routes/marketplace.js:523-545 | the direct transfer only appends to the histories |
| MarketInvariants.ConfirmKeepsHistories | routes/notifications.js:79-103 | the confirmed transfer only appends to the histories |
| MarketInvariants.CreatePreserves | routes/marketplace.js:71-143 | create keeps the invariant and the histories, writes nothing when it fails, and stores the new listing under a fresh id |
| MarketInvariants.CancelPreserves | routes/marketplace.js:147-177 | cancel keeps the invariant and writes nothing when it fails |
| MarketInvariants.ViewPreserves | routes/marketplace.js:48-67 | viewing keeps the invariant |
| MarketInvariants.SubmitPreserves | routes/marketplace.js:577-675 | a claim keeps the invariant, and it succeeds whenever the guards pass and the method is complete |
| MarketInvariants.DirectPurchasePreserves | routes/marketplace.js:472-574 | the corrected direct purchase keeps the invariant and succeeds exactly when the guards pass |
| MarketInvariants.ConfirmPreserves | routes/notifications.js:53-135 | confirm keeps the invariant and succeeds exactly when its checks pass |
| MarketInvariants.RejectPreserves | routes/notifications.js:138-176 | reject keeps the invariant, including when it fails after saving the rejection |
| MarketInvariants.RejectSucceedsIff | routes/notifications.js:138-176 | reject succeeds exactly when the caller is the seller, the reactivation passes the index and the buyer exists; the status is never checked |
| MarketInvariants.MarkReadPreserves | routes/notifications.js:179-186 | mark-read keeps the invariant and is idempotent |
| MarketScenarios.SubmitCreatesPendingClaim | routes/notifications.js:33-50 | a successful claim is listed among the seller's pending transactions, for the listing's price, with the listing pending |
| MarketScenarios.ConfirmMovesClaimToHistory | routes/notifications.js:53-135 | a confirmed claim leaves the pending list and enters the seller's sales and the buyer's purchases |
| MarketScenarios.RejectClosesClaim | routes/notifications.js:138-176 | a rejected claim leaves the pending list, enters no sales list, and keeps its reason |
| MarketScenarios.SecondConfirmFails | routes/notifications.js:69-71 | confirming twice answers 400 the second time and writes nothing |
| MarketScenarios.RejectAfterConfirmRelists | routes/notifications.js:153-159 | a completed sale can still be rejected, which re-lists an item the buyer now owns |
| MarketScenarios.DoubleSale | routes/notifications.js:53-112 | two claims on one collection can both be confirmed, transferring the item twice |
| MarketScenarios.SubmitKeepsOtherClaims | routes/marketplace.js:620-652 | a new claim leaves an open claim unchanged and still confirmable |
| MarketScenarios.CancelPendingThenRelist | routes/marketplace.js:147-168 | a listing with an open claim can be cancelled and the item listed again, leaving the claim's transaction untouched |
| MarketScenarios.RejectThenClaimAgain | routes/notifications.js:153-159 | after a rejection another buyer's claim on the same listing succeeds and awaits the seller |
| Text.TrimStart | routes/chat.js:172 | trimming the start never lengthens a text; white space is ECMAScript's full set of white space and line terminators |
| Text.TrimStartSpec | routes/chat.js:172 | trimming the start keeps a suffix that does not begin with white space, after white space only |
| Text.TrimEnd | routes/chat.js:199 | trimming the end never lengthens a text; white space is ECMAScript's full set of white space and line terminators |
| Text.TrimEndSpec | routes/chat.js:199 | trimming the end keeps a prefix that does not end with white space, before white space only |
| Text.TrimEmptyIffAllSpace | routes/chat.js:172 | a text is blank after `trim` exactly when it is all white space |
| Text.Units | routes/chat.js:216 | a character takes one UTF-16 code unit, or two outside the Basic Multilingual Plane |
| Text.Utf16Length | routes/chat.js:216 | `length` lies between the number of characters and twice that |
| Text.Utf16LengthAppend | routes/chat.js:216 | lengths add up under concatenation |
| Text.BmpLength | routes/chat.js:216 | on the Basic Multilingual Plane `length` counts characters |
| Text.AstralLength | routes/chat.js:216 | outside it `length` counts two per character |
| Text.TrimShortens | routes/chat.js:216 | `trim` never increases `length` |
| Text.Prefix | routes/chat.js:216 | `substring(0, n)` is the longest prefix that fits in n code units, and the whole text when it fits |
| Text.BmpPrefix | routes/chat.js:216 | on the Basic Multilingual Plane `substring(0, n)` is the first n characters |
| Text.AstralPrefix | routes/chat.js:216 | outside it `substring(0, 2m)` is the first m characters |
| Text.ToLower | routes/marketplace.js:31 | lower-casing keeps the length and lowers each capital of the Latin, Latin-1, basic Greek and Cyrillic alphabets |
| Text.NatToString | routes/chat.js:115-116 | `String(n)` is a non-empty run of digits without a leading zero |
| Text.NatToStringRoundTrip | routes/chat.js:115-116 | reading the digits of `String(n)` gives n |
| Text.LeadingDigits | routes/chat.js:115-116 | the digits `parseInt` reads are the longest prefix of digits |
| Text.LeadingHexDigits | routes/chat.js:115-116 | after `0x`, `parseInt` reads the longest prefix of hexadecimal digits |
| Text.ParseIntOfHex | routes/chat.js:115-116 | without a radix `0x` and hexadecimal digits read in base 16; with radix 10 they read as 0 |
| Text.ParseIntOfNatToString | routes/chat.js:115-116 | `parseInt(String(n))` is n, with or without radix 10 |
| Text.IntToString | public/js/profile.js:567 | `String(n)` for any integer is non-empty |
| Text.ParseIntOfIntToString | public/js/profile.js:566-567 | `parseInt(String(n))` is n for negative n as well, with or without radix 10 |
| Text.ParseIntOfNegative | public/js/profile.js:566-567 | a minus sign before digits reads as the negated value, with or without radix 10 |
| Text.ParseIntNoDigits | public/js/collection-add.js:33 | a text without digits parses to NaN, with or without radix 10 |
| ChatRules.History | routes/chat.js:130-133 | the visible history holds exactly the chat's messages that are not deleted |
| ChatRules.IntOr | routes/chat.js:115-116 | `parseInt(q) or fallback` is never 0 unless the fallback is, and it is the parsed number when that is non-zero |
| ChatRules.ReadPaging | routes/chat.js:115-117 | page defaults to 1, limit to 50, neither is 0, and skip is (page - 1) times limit |
| ChatRules.DefaultPaging | routes/chat.js:115-117 | without a query the first 50 messages are read |
| ChatRules.PagingOfNumbers | routes/chat.js:115-117 | numeric page and limit queries are read back as given |
| ChatRules.PagingOfHex | routes/chat.js:115-117 | `parseInt` has no radix there, so the page query "0x2" reads as page 2 |
| ChatRules.Reverse | routes/chat.js:158 | `reverse()` mirrors the positions |
| ChatRules.PageIsSlice | routes/chat.js:135-158 | a page is the run of the history that ends `skip` messages before the newest, oldest first |
| ChatRules.HasMoreMeansFull | routes/chat.js:159 | `hasMore` holds exactly when at least `limit` messages remain past `skip` |
| ChatRules.PreviewAsWritten | routes/chat.js:216 | as written: the trimmed text cut to 50 code units, with '...' exactly when the untrimmed content is longer than 50 code units |
| ChatRules.PreviewAsWrittenMarksUncutText | routes/chat.js:216 | a short message padded with spaces gets '...' although nothing was cut |
| ChatRules.Preview | routes/chat.js:216 | corrected: the trimmed text when it fits in 50 code units; otherwise a proper prefix of 49 or 50 code units followed by '...' |
| ChatRules.PreviewOfBmp | routes/chat.js:216 | on the Basic Multilingual Plane a long text is cut to its first 50 characters |
| ChatRules.PreviewOfAstral | routes/chat.js:216 | outside the Basic Multilingual Plane a long text is cut to its first 25 characters |
| ChatRules.PreviewOfEmoji | routes/chat.js:216 | a message of 30 emoji (60 code units) previews as 25 emoji and '...' |
| ChatRules.PreviewAgreesOnTrimmed | routes/chat.js:216 | the two previews agree on text without surrounding spaces |
| ChatRules.ChatNotify | routes/chat.js:12-31 | nothing is stored for oneself; otherwise the old notices are kept and one valid, unread `new_message` notice from the sender is appended, linked to the chat and carrying the preview |
| ChatRules.ChatNotices | routes/chat.js:232-240 | one notice per recipient, in order |
| ChatRules.NoticesSpareTheSender | routes/chat.js:228-240 | every other participant gets a notice and the sender none |
| ChatRules.FirstCommunity | routes/chat.js:68 | the lookup finds the first community chat, or reports there is none |
| ChatRules.FindPairChat | routes/chat.js:294-297 | the lookup finds the first private chat of exactly the two users, or reports there is none |
| ChatRules.FindPairChatSymmetric | routes/chat.js:294-297 | the lookup does not depend on which of the two users asks |
| ChatRules.MarkAllRead | routes/chat.js:140-154 | the read receipt applies to each stored message in place |
| ChatRules.ClearAll | routes/chat.js:373-380 | the soft delete applies to each stored message in place |
| ChatRules.ClearEmptiesHistory | routes/chat.js:373-380 | clearing empties the chat's history and leaves every other chat's history unchanged |
| ChatRules.ReadKeepsHistory | routes/chat.js:140-154 | read receipts keep every chat's visible history: the same number of messages, with the same senders and contents |
| ChatRules.AddIfAbsent | routes/chat.js:183-190 | the user is in the list afterwards, added at the end only when absent |
| ChatRules.AddIfAbsentKeepsDistinct | routes/chat.js:183-190 | joining never duplicates a participant |
| ChatRoutes.ChatStore.constructor | routes/chat.js:3-7 | an empty store over the given users |
| ChatRoutes.ChatStore.OpenChatList | routes/chat.js:53-109 | lists the caller's private chats and returns the community chat, created or joined, with the caller in it |
| ChatRoutes.ChatStore.ReadMessages | routes/chat.js:112-165 | 404 for a missing chat, 403 for a private chat of others; otherwise the page and `hasMore`, with read receipts added |
| ChatRoutes.ChatStore.SendMessage | routes/chat.js:167-277 | corrected: 400 exactly for blank content, 404 exactly for a missing chat, 403 exactly for a private chat of others; on success the trimmed message is stored and the others are notified with the corrected `ChatRules.Preview` |
| ChatRoutes.ChatStore.Broadcast | routes/chat.js:232-265 | appends exactly the notices `ChatNotices` gives, changing nothing else |
| ChatRoutes.ChatStore.OpenPrivateChat | routes/chat.js:281-317 | 400 exactly for oneself, 404 exactly for an unknown user; otherwise the existing pair chat, or a new one appended |
| ChatRoutes.ChatStore.ClearChat | routes/chat.js:345-420 | 404 for a missing chat, 403 for a non-participant; on success every visible message is soft-deleted and their count returned |
| ChatRoutes.FirstPairChatAppended | routes/chat.js:299-304 | a pair chat appended where there was none is the one found next time |
| SocialLists.RemoveAll | routes/index.js:369-370 | the filter drops every occurrence of the id and keeps every other id's count |
| SocialLists.RemoveAllAppend | routes/index.js:369 | the filter distributes over concatenation |
| SocialLists.RemoveAllAbsent | routes/index.js:369 | a list without the id is left as it is |
| SocialLists.RemoveAllUndoesAppend | routes/index.js:345-370 | unfollowing right after a follow restores the list |
| SocialLists.IndexOf | routes/index.js:496 | `indexOf` is -1 exactly when the id is absent, else its first position |
| SocialLists.Toggle | routes/index.js:496-504 | a present id loses one occurrence; an absent one is appended |
| SocialLists.ToggleKeepsDistinct | routes/index.js:496-504 | toggling keeps a duplicate-free list duplicate-free and flips membership |
| SocialLists.ToggleTwiceFromAbsent | routes/index.js:496-504 | like then unlike restores the list exactly |
| SocialLists.ToggleTwiceFromPresent | routes/index.js:496-504 | unlike then like keeps the same likes |
| SocialForms.EscapeRegex | routes/index.js:284 | escaping never shortens, and leaves text without special characters as it is |
| SocialForms.EscapeRegexIsLiteral | routes/index.js:284 | the escaped query is a pattern matching exactly the query's own text |
| SocialForms.EscapeRegexInjective | routes/index.js:284 | different queries give different patterns |
| SocialForms.ToArray | routes/index.js:208 | an array stays as it is; a non-empty single value becomes one item; anything else becomes an empty list |
| SocialForms.PreviousOwners | routes/index.js:213-217 | one entry per owner name, with the date at the same position or null |
| SocialForms.SingleOwnerRow | routes/index.js:208-217 | a single form row gives exactly one entry; dates without a name give none |
| SocialRoutes.NoticeMessage | routes/index.js:65-76 | the message is never empty, and unknown types get 'New notification' |
| SocialRoutes.CreateNotification | routes/index.js:58-87 | nothing for oneself or for a type the schema refuses; otherwise one unread notice appended, with the table's message, the post and chat links and the image, comment and preview data passed in, and nothing else |
| SocialRoutes.LinkedEffects | routes/index.js:345-348 | a follow appends once to each of the two lists and touches no other user |
| SocialRoutes.UnlinkedEffects | routes/index.js:369-372 | every occurrence goes from both lists, and no other user is touched |
| SocialRoutes.UnlinkUndoesLink | routes/index.js:345-372 | unfollowing right after a follow restores both users |
| SocialRoutes.UpdatesUndone | routes/index.js:345-372 | writing two profiles and then their old values back restores the store |
| SocialRoutes.LinkKeepsFollowersDistinct | routes/index.js:341-345 | a follow that passes the 409 check keeps the followers free of duplicates |
| SocialRoutes.SocialStore.FindUser | routes/index.js:338 | a found user exists; in a consistent store a user is found exactly when the name is indexed |
| SocialRoutes.SocialStore.constructor | routes/index.js:7-11 | an empty store, consistent: every indexed username names a stored user |
| SocialRoutes.SocialStore.Follow | routes/index.js:333-359 | 400, 404 and 409 each exactly on their condition, no write on failure; on success both lists grow and the target is notified |
| SocialRoutes.SocialStore.Unfollow | routes/index.js:361-378 | 400 and 404 exactly on their condition; on success both lists lose every occurrence |
| SocialRoutes.SocialStore.RemoveFollower | routes/index.js:380-399 | 400 for no name, 404 for an unknown user; on success the follower leaves both lists |
| SocialRoutes.SocialStore.UnfollowUser | routes/index.js:401-420 | 400 for no name, 404 for an unknown user; on success the followed user leaves both lists |
| SocialRoutes.SocialStore.ToggleLike | routes/index.js:489-525 | 404 for a missing post, 500 for a like on a post whose author is gone, both writing nothing; otherwise the like toggles, the count is the new length, and only a like notifies |
| SocialRoutes.SocialStore.AddComment | routes/index.js:527-571 | 400 exactly for blank text, 404 exactly for a missing post; otherwise the trimmed comment is appended, and the answer is 200 with the author notified exactly when the author exists |
| ChatClient.Members | public/js/chat.js:749 | the set holds exactly the participants |
| ChatClient.MemberCountDistinct | public/js/chat.js:749-750 | the member count is at most the list length, and equal exactly when no one is listed twice |
| ChatClient.MemberCountJoin | public/js/chat.js:749-750 | a join raises the member count by one exactly when the user was absent |
| ChatClient.RoomEvents | public/js/chat.js:419-427 | corrected: the socket events end with joining the new chat |
| ChatClient.RoomsAsWrittenAccumulate | public/js/chat.js:416-422 | as written, switching chats never leaves the previous room |
| ChatClient.RoomEventsSwitch | public/js/chat.js:419-427 | corrected: after a switch the socket is in the new room and no longer in the previous one |
| ChatClient.RemoveKey | public/js/chat.js:565 | removing an element drops exactly that element |
| ChatClient.SettleSend | public/js/chat.js:563-591 | corrected: the optimistic element always goes; a delivered message is shown without an alert, and every failure alerts |
| ChatClient.SettleSendAsWrittenKeepsTemp | public/js/chat.js:583-588 | as written, a network error throws in the handler, leaving the optimistic element and showing no alert |
| ChatClient.TypingFlags | public/js/chat.js:685-697 | the typing flags among the emitted events, at most one per event; which flags they are is `TypingFlagsMembers`, and `Consistent` with the KeepsConsistent lemmas keeps them alternating in order |
| ChatClient.TypingFlagsMembers | public/js/chat.js:685-697 | no flag without a typing event, and every flag is the one some typing event carried |
| ChatClient.ChatPage.constructor | public/js/chat.js:2-11 | the page starts with no chat, no typing and nothing sent |
| ChatClient.ChatPage.Type | public/js/chat.js:519 | typing only changes the input |
| ChatClient.ChatPage.SelectChat | public/js/chat.js:403-449 | corrected: the page moves as `Selected` says, leaving the previous chat's room, and stays consistent |
| ChatClient.ChatPage.HandleTyping | public/js/chat.js:682-692 | `true` is emitted only when typing starts in an open chat; the page stays consistent |
| ChatClient.ChatPage.StopTyping | public/js/chat.js:694-699 | `false` is emitted only when typing was on; the page stays consistent |
| ChatClient.ChatPage.HandleNewMessage | public/js/chat.js:670-680 | a pushed message is shown only in its chat and only once |
| ChatClient.ChatPage.StartChatWithUser | public/js/chat.js:641-668 | corrected: the chat goes to the front of the list unless present, then it is selected as `Selected` says |
| ChatClient.ChatPage.HandleUserSearch | public/js/chat.js:594-639 | a query under two code units hides the results and asks nothing; otherwise the results show when someone is found |
| ChatClient.ChatPage.BeginSend | public/js/chat.js:518-559 | blocked sends change nothing; otherwise the button is disabled, the optimistic element shown, the input cleared and the trimmed text posted |
| ChatClient.ChatPage.FinishSend | public/js/chat.js:560-591 | corrected: the send settles as `SettleSend` says, typing stops on delivery and the button is enabled again |
| ChatClient.SelectedKeepsConsistent | public/js/chat.js:403-449 | selecting a chat keeps the page consistent: the typing flags alternate and match `isTyping` |
| ChatClient.TypingStartedKeepsConsistent | public/js/chat.js:682-692 | starting to type keeps the page consistent |
| ChatClient.TypingStoppedKeepsConsistent | public/js/chat.js:694-699 | stopping typing keeps the page consistent |
| ChatClient.SendFinishedKeepsConsistent | public/js/chat.js:560-591 | settling a send keeps the page consistent |
| ChatClient.SavedKeys | public/js/chat.js:483-490 | the rendered list holds the loaded messages in order |
| ChatClient.ChatStartedKeepsChatsDistinct | public/js/chat.js:655-663 | starting a chat keeps the chat list free of duplicates and makes that chat current |
| ChatClient.SendBegunIdempotent | public/js/chat.js:522-524 | a second press while a send is running changes nothing |
| ChatClient.SendRoundTrip | public/js/chat.js:518-576 | a delivered send clears the input, posts the trimmed text once, shows the saved message in place of the optimistic one, and re-enables the button |
| ChatClient.SendFailureAlerts | public/js/chat.js:577-591 | a refused or failed send alerts once and removes its optimistic element |
| ChatClient.MessageArrivedIdempotent | public/js/chat.js:670-680 | a message pushed twice is shown once, and shown exactly when its chat is open |
| ChatClient.TypingAppended | public/js/chat.js:685 | one typing event adds its flag |
| ChatClient.NoTypingAppended | public/js/chat.js:420-427 | room events add no typing flag |
| ChatCookie.FindFrom | public/js/chat.js:296 | finds the first occurrence of the separator at or after a position, or -1 |
| ChatCookie.UpTo | public/js/chat.js:297 | `split(';').shift()` is the prefix before the first ';' |
| ChatCookie.CutsOnce | public/js/chat.js:296-297 | `split` gives two pieces exactly when the marker occurs and does not occur again after its first occurrence |
| ChatCookie.GetCookie | public/js/chat.js:294-299 | a value is returned exactly when "; name=" occurs once in "; " + the jar, and the value is the text after that occurrence up to the next ';' |
| ChatCookie.FindFromSkips | public/js/chat.js:296 | positions where the separator does not start are passed over |
| ChatCookie.UpToWhole | public/js/chat.js:297 | a value without ';' is read whole |
| ChatCookie.NoMoreCuts | public/js/chat.js:296 | without a further ';' there is no further cut |
| ChatCookie.GetCookieSingle | public/js/chat.js:294-299 | a jar holding only `name=v` gives v |
| ChatCookie.GetCookieTwice | public/js/chat.js:294-299 | a jar setting the name twice gives null |
| ChatCookie.TwoCuts | public/js/chat.js:296 | a marker at the start and one more later make exactly two cuts |
| ChatCookie.CutAt | public/js/chat.js:296 | the next cut is at the first occurrence of the marker |
| ChatCookie.LastCut | public/js/chat.js:296 | no ';' left means no cut |
| TimeAgo.Bucket | public/js/chat.js:763-771 | the label's unit and count match the elapsed seconds: under a minute, minutes, hours, days, or a date after a week |
| TimeAgo.BucketMonotone | public/js/chat.js:767-770 | an older date never gets a younger label |
| TimeAgo.ChatLabel | public/js/chat.js:767-771 | the chat page shows 'now' under a minute and the date after a week |
| TimeAgo.NoticeLabel | public/js/notifications.js:281-289 | the notifications page shows 'Just now' under a minute and the date after a week |
| TimeAgo.FormatTimeAgo | public/js/chat.js:763-771 | 'now' under a minute, then the floored minutes, hours or days with 'm', 'h' or 'd', and the locale date from a week on; `StylesAgree` relates it to `GetTimeAgo` |
| TimeAgo.GetTimeAgo | public/js/notifications.js:281-289 | 'Just now' under a minute, then the floored minutes, hours or days with 'm ago', 'h ago' or 'd ago', and the locale date from a week on |
| TimeAgo.ParseIntStopsAtSuffix | public/js/notifications.js:285 | digits followed by a unit read back as the number |
| TimeAgo.LeadingDigitsOfDigits | public/js/notifications.js:285 | the digits before the unit are all `parseInt` reads |
| TimeAgo.LabelsReadBack | public/js/profile.js:525-528 | every minute, hour or day label reads back as its count and ends with its unit |
| TimeAgo.StylesAgree | public/js/profile.js:521-530 | the two label styles use the same buckets and counts |
| PostUploader.ImageFiles | public/js/postUploader.js:2 | the filter never lengthens the list |
| PostUploader.ImageFilesMembers | public/js/postUploader.js:2 | a file is kept exactly when it is an image |
| PostUploader.ImageFilesAppend | public/js/postUploader.js:2 | the filter distributes over concatenation |
| PostUploader.ImageFilesAllImages | public/js/postUploader.js:2 | a pick made only of images is kept whole |
| PostUploader.HandleFiles | public/js/postUploader.js:1-14 | without an image the toast shows and the selection is unchanged; otherwise the images are appended, previewed and the section shown |
| PostUploader.HandleFilesInTwoPicks | public/js/postUploader.js:9 | two picks in a row select the same images as one pick of both |
| PostUploader.HandleFilesSelects | public/js/postUploader.js:1-14 | the selection afterwards is the old one followed by the picked images |
| PostUploader.HandleFilesKeepsImagesOnly | public/js/postUploader.js:2-9 | a selection made of images stays made of images |
| PostUploader.HandleFilesExamples | tests/unit/postUploader.test.js:21-57 | the text-and-PDF pick is refused with the toast; the two-image pick selects both and shows the section |
| NotificationsClient.IconOf | public/js/notifications.js:259-276 | every known type has a table icon other than the bell |
| NotificationsClient.BellIffUnknown | public/js/notifications.js:277 | the bell shows exactly for the unknown types |
| NotificationsClient.NotificationIcon | public/js/notifications.js:258-278 | the bell exactly for a type outside the table, and each known type's own table icon (`IconOfName`) |
| NotificationsClient.IconsDistinct | public/js/notifications.js:259-276 | two types share an icon exactly when they are the same, or are a rejected payment and a declined offer |
| NotificationsClient.IconOfName | public/js/notifications.js:258-278 | every known type gets its table icon back by name |
| NotificationsClient.ClickTarget | public/js/notifications.js:241-254 | a message with a chat goes to the chat link; a like or comment with a post reloads; everything else stays |
| NotificationsClient.ChatLinkCarriesId | public/js/notifications.js:243 | the chat id can be read back from the link |
| NotificationsClient.MarketplaceClicksStay | public/js/notifications.js:251-254 | marketplace and follow notices never navigate |
| NotificationsClient.ConfirmPayment | public/js/notifications.js:100-107 | the confirm request goes out exactly when the dialog is confirmed |
| NotificationsClient.RejectPayment | public/js/notifications.js:125-134 | the reject request goes out exactly when a non-empty reason is given, and it carries that reason |
| NotificationsClient.RejectReasonKept | public/js/notifications.js:126-133 | the server stores the reason the seller typed, never its default |
| NotificationsClient.PendingSectionShown | public/js/notifications.js:16-30 | the section shows exactly when the server answers with pending claims, and a failed request leaves it as it was |
| NotificationsClient.UnreadIds | public/js/notifications.js:193 | an id is listed exactly when some unread item has it; in page order, one request each (`NotificationsPage.SendReads`) |
| NotificationsClient.AllRead | public/js/notifications.js:216-224 | every item is read, with ids and order kept |
| NotificationsClient.MarkFirst | public/js/notifications.js:166-176 | ids and read flags already set are kept and an absent id changes nothing; `MarkFirstSpec` states that the first item with the id, and only it, is marked read |
| NotificationsClient.MarkFirstSpec | public/js/notifications.js:166-176 | only the first item with the id becomes read; ids and the other items are kept |
| NotificationsClient.MarkFirstIdempotent | public/js/notifications.js:152-185 | marking twice is marking once |
| NotificationsClient.AllReadLeavesNoUnread | public/js/notifications.js:216-224 | after marking all, nothing is unread |
| NotificationsClient.NoUnreadIsAllRead | public/js/notifications.js:195-198 | a list with nothing unread is already all read |
| NotificationsClient.NotificationsPage.constructor | public/js/notifications.js:2-9 | the page starts with the loaded items and nothing sent |
| NotificationsClient.NotificationsPage.MarkAsRead | public/js/notifications.js:152-185 | one request is sent, and the item is marked only when the server agrees |
| NotificationsClient.NotificationsPage.HandleClick | public/js/notifications.js:236-255 | the item is marked read first, then the page goes where `ClickTarget` says |
| NotificationsClient.NotificationsPage.MarkAllRead | public/js/notifications.js:188-233 | with nothing unread only an alert; otherwise a dialog, then one request per unread item and every item read when all went through |
| NotificationsClient.NotificationsPage.SendReads | public/js/notifications.js:205-211 | one request per unread item, in page order |
| NotificationsClient.NotificationsPage.ShowAllRead | public/js/notifications.js:216-224 | every item shown as read |
| ProfileClient.ArrowsKeepRange | public/js/profile.js:205-221 | both arrows keep the index on an existing image, left never forward and right never back |
| ProfileClient.LeftUndoesRight | public/js/profile.js:205-221 | left undoes right wherever right moved |
| ProfileClient.RightPressesStopAtLast | public/js/profile.js:214-221 | k presses of right from the first image reach image k, stopping at the last |
| ProfileClient.HiddenArrowsInert | public/js/profile.js:405-427 | the arrows hidden for a single image would not have moved it |
| ProfileClient.CounterReadsPosition | public/js/profile.js:202 | the counter reads back as the one-based position |
| ProfileClient.Slider.constructor | public/js/profile.js:162-172 | no item open, first image |
| ProfileClient.Slider.Open | public/js/profile.js:165-166 | opening an item shows its first image |
| ProfileClient.Slider.OpenCollection | public/js/profile.js:162-172 | a valid index opens that collection at its first image; any other index changes nothing |
| ProfileClient.Slider.OpenPost | public/js/profile.js:300-318 | a loaded post opens at its first image; a failed load changes nothing |
| ProfileClient.Slider.Left | public/js/profile.js:205-211 | the index moves as `LeftIndex` says, staying in range |
| ProfileClient.Slider.Right | public/js/profile.js:214-221 | the index moves as `RightIndex` says, staying in range |
| ProfileClient.Slider.Dot | public/js/profile.js:199 | a dot selects its image |
| ProfileClient.CountOfIntToString | public/js/profile.js:566-567 | a counter written by the page reads back as the number written |
| ProfileClient.MessageOr | public/js/profile.js:571 | the toast is never empty when its fallback is not |
| ProfileClient.Removed | public/js/profile.js:602-603 | the removed entry goes and the others keep their order |
| ProfileClient.FollowKeepsCountsNatural | public/js/profile.js:545-578 | a follow or unfollow keeps both counters at natural numbers |
| ProfileClient.RemoveKeepsCountsNatural | public/js/profile.js:583-622 | removing a follower keeps both counters at natural numbers |
| ProfileClient.UnfollowKeepsCountsNatural | public/js/profile.js:625-664 | unfollowing a user keeps both counters at natural numbers |
| ProfileClient.CountUpNatural | public/js/profile.js:566-567 | a follow adds one to a natural count |
| ProfileClient.CountDownNatural | public/js/profile.js:608-609 | an unfollow or removal lowers the count by one, never below 0 |
| ProfileClient.ButtonFlips | public/js/profile.js:550-562 | a successful request flips the action the button sends next |
| ProfileClient.FollowThenUnfollow | public/js/profile.js:545-578 | a follow then an unfollow, both successful, restore the button and the count |
| ProfileClient.FailuresOnlyToast | public/js/profile.js:570-574 | a refused or failed request changes only the requests and the toasts |
| ProfileClient.ProfilePage.constructor | public/js/profile.js:541-544 | the counters start at the lengths of the two lists |
| ProfileClient.ProfilePage.SubmitFollow | public/js/profile.js:545-578 | the page moves as `FollowSubmitted` says, counters natural |
| ProfileClient.ProfilePage.RemoveFollower | public/js/profile.js:583-622 | the page moves as `FollowerRemoved` says, counters natural |
| ProfileClient.ProfilePage.UnfollowUser | public/js/profile.js:625-664 | the page moves as `UserUnfollowed` says, counters natural |
| CollectionAdd.PrecedesIrreflexive | public/js/collection-add.js:141 | no date string comes before itself |
| CollectionAdd.PrecedesTransitive | public/js/collection-add.js:141-158 | the string order on dates is transitive |
| CollectionAdd.PrecedesTotal | public/js/collection-add.js:141-158 | two different date strings are ordered one way or the other |
| CollectionAdd.DetailsCheckSpec | public/js/collection-add.js:24-38 | the details pass exactly when the brand is not blank, nothing is empty and no price reads below one |
| CollectionAdd.WholePrices | public/js/collection-add.js:33 | a whole-number price passes exactly when it is at least 1 |
| CollectionAdd.PriceInput | public/js/collection-add.js:93-107 | a value that reads below one is cleared with a toast; any other value is kept |
| CollectionAdd.PriceInputSettles | public/js/collection-add.js:93-107 | a checked price stays as it is when checked again |
| CollectionAdd.FromChanged | public/js/collection-add.js:139-150 | a "From" change shows at most two toasts |
| CollectionAdd.ToChanged | public/js/collection-add.js:151-160 | a "To" change shows at most two toasts |
| CollectionAdd.FromChangedKeepsDates | public/js/collection-add.js:139-150 | after a "From" change the row's dates are not in the future and in order |
| CollectionAdd.ToChangedKeepsDates | public/js/collection-add.js:151-160 | after a "To" change the row's dates are not in the future and in order |
| CollectionAdd.OwnerAdded | public/js/collection-add.js:116-162 | corrected: one row is appended and the others are kept |
| CollectionAdd.OwnerAddedAsWrittenAddsNothing | public/js/collection-add.js:117 | as written, a click never adds a row |
| CollectionAdd.OwnerAddedChains | public/js/collection-add.js:118-133 | a new row starts where the last one ends, with valid dates |
| CollectionAdd.FutureFromCarriesOver | public/js/collection-add.js:140-148 | a future "From" is clamped to today, but the "To" bound keeps the future date |
| CollectionAdd.ImagesStayCapped | public/js/collection-add.js:47-87 | the five-image cap holds, add-more shows exactly below it, and a batch that would pass the cap is refused whole |
| CollectionAdd.OwnersStepNeedsImagesAndDetails | public/js/collection-add.js:16-38 | from the images step, the owners step is reached only with an image and details that pass |
| CollectionAdd.PriceEditedSettles | public/js/collection-add.js:93-107 | after a price edit no price in that input reads below one |
| CollectionAdd.CollectionForm.constructor | public/js/collection-add.js:4-8 | the wizard starts on the first step with nothing entered |
| CollectionAdd.CollectionForm.NextFromImagesClicked | public/js/collection-add.js:16-22 | the form moves as `NextFromImages` says, cap kept |
| CollectionAdd.CollectionForm.NextFromDetailsClicked | public/js/collection-add.js:24-38 | the form moves as `NextFromDetails` says, cap kept |
| CollectionAdd.CollectionForm.PreviousClicked | public/js/collection-add.js:40 | the form moves one step back, cap kept |
| CollectionAdd.CollectionForm.ChooseFiles | public/js/collection-add.js:47-59 | the form moves as `FilesChosen` says, cap kept |
| CollectionAdd.CollectionForm.RemoveImage | public/js/collection-add.js:78-82 | the form moves as `ImageRemoved` says, cap kept |
| CollectionAdd.CollectionForm.EditPrice | public/js/collection-add.js:93-107 | the form moves as `PriceEdited` says, cap kept |
| CollectionAdd.CollectionForm.AddOwner | public/js/collection-add.js:116-162 | corrected: the owner rows become `OwnerAdded` of the old rows, nothing else changes |
| CollectionAdd.CollectionForm.EditFrom | public/js/collection-add.js:139-150 | the form moves as `FromEdited` says, cap kept |
| CollectionAdd.CollectionForm.EditTo | public/js/collection-add.js:151-160 | the form moves as `ToEdited` says, cap kept |
| CollectionAdd.CollectionForm.RemoveOwner | public/js/collection-add.js:134-136 | the form moves as `OwnerRemoved` says, cap kept |

## Left out

- Concurrency: every handler runs alone. Interleavings of requests and of
  socket events with fetches are not modelled.
- Sockets: Socket.IO emits (the `newMessage`, `newNotification` and
  `chatCleared` events) are not modelled. The chat page's own emits are
  kept as a list of events.
- Session and authentication: the caller is a parameter. The
  authentication middleware, the session layer and the user controller are
  not part of this model.
- External services: Redis caching, Cloudinary and multer uploads, and the
  browser's `FileReader` previews are left out. Uploaded images are names.
- Rendering: pages rendered with templates are left out, as are the
  profile, explore, post-view and newsletter routes of routes/index.js and
  the comment-delete route.
- Read-only lists: `GET /api/notifications`, the two user-search routes,
  and the sort order and population of every list. Lists are sets or keep
  the store's order.
- models/User.js, models/Post.js and models/Message.js are not part of this
  model. Their fields appear as far as the handlers touch them.
- Numbers: prices are integers, not floating point. `parseFloat` is
  modelled as a number or NaN.
- Clocks: the current time is a parameter. Dates are numbers, and the
  client pages compare `YYYY-MM-DD` strings. The locale date shown after a
  week is left abstract.
- Icons: the notification icons are named by what they show, not by their
  glyphs.
- Timers and button states: the one-second typing timer of the chat page is
  left to the caller. The buttons disabled while a profile request runs are
  left out, as are the toast timers.
- ChatRoutes.ChatStore.ReadMessages: a page query that makes `skip`
  negative answers 500. A negative `limit` is read as its absolute value,
  as the database driver does.
- ProfileClient.ProfilePage: the two count elements are assumed to be on
  the page, and the follower list element is removed as the server
  answered.
- CollectionAdd.CollectionForm.PreviousClicked: the previous button is not
  guarded in the source, so the step can go below 0. The model keeps that.
- CollectionAdd.CollectionForm.constructor: the add-more button is assumed
  to show when the page loads.
- CollectionAdd: the form submit (collection-add.js:165-215) is left out.
  What it sends is the shape `SocialForms.PreviousOwners` reads.
- Text.Prefix: where the n-th code unit is the first half of a surrogate
  pair, `substring(0, n)` keeps that lone half. A Dafny character is a whole
  Unicode scalar value, so the model leaves the pair out and cuts one unit
  shorter.
- ChatRules.Preview: inherits the surrogate-pair cut of `Text.Prefix`.
- ChatRules.PreviewAsWritten: inherits the surrogate-pair cut of
  `Text.Prefix`.
- Text.ToLower: lowers only the capitals of the Latin, Latin-1, basic Greek
  and Cyrillic alphabets. The capitals of other scripts (Latin Extended,
  accented Greek, Armenian, Georgian and others) and the special mappings of
  the Unicode case tables (dotted capital I, final sigma) are left as they
  are.
- PurchaseRoutes.PurchaseWithTransaction: the corrected direct purchase,
  where the payment method is optional. As written the save of its
  transaction always fails and the route answers 500
  (`PurchaseRoutes.PurchaseWithTransactionAsWritten`,
  `PurchaseRoutes.DirectPurchaseDiffers`).
- MarketEngine.Marketplace.PurchaseAtomically: runs the corrected
  `PurchaseRoutes.PurchaseWithTransaction`. The route as written is
  `PurchaseRoutes.PurchaseWithTransactionAsWritten`, and the two differ
  exactly when the guards pass (`PurchaseRoutes.DirectPurchaseDiffers`).
- MarketEngine.Marketplace.Purchase: with the transactions flag on it runs
  the corrected `MarketEngine.Marketplace.PurchaseAtomically`.
- MarketDb.Wf: checks the corrected Transaction schema. Claim transactions
  carry a payment method, and for them the two schemas agree
  (`TransactionModel.ValidationsAgreeWithMethod`).
- ChatRoutes.ChatStore.SendMessage: notifies with the corrected
  `ChatRules.Preview`. The route as written uses
  `ChatRules.PreviewAsWritten`, and the two differ only for content with
  surrounding white space (`ChatRules.PreviewAgreesOnTrimmed`).
- ChatClient.ChatPage.SelectChat: runs the corrected room switch
  `RoomEvents`. The page as written leaves the new chat's room,
  `RoomEventsAsWritten`, so every room joined stays joined
  (`ChatClient.RoomsAsWrittenAccumulate`).
- ChatClient.ChatPage.StartChatWithUser: selects the chat with the same
  corrected room switch as `ChatClient.ChatPage.SelectChat`.
- ChatClient.ChatPage.FinishSend: runs the corrected `SettleSend`. As
  written, a failed send throws in the `catch` block, so the optimistic
  element stays and no alert shows (`ChatClient.SettleSendAsWrittenKeepsTemp`).
- CollectionAdd.FromChanged and CollectionAdd.ToChanged: their own
  contracts bound only the toasts. The dates they leave are stated by
  `FromChangedKeepsDates`, `ToChangedKeepsDates` and
  `FutureFromCarriesOver`.

## Findings

| source | as written | input that shows it | evidently intended | confidence | as-written member | corrected member |
|---|---|---|---|---|---|---|
| models/Transaction.js:10-13 | `paymentMethod.type` and `paymentMethod.details` are required, but the direct purchase (routes/marketplace.js:511-519) sets no payment method, so its save always fails and it answers 500 | any purchase whose guards pass while `MONGODB_USE_TRANSACTIONS` is `true` | the payment method is optional for a completed direct purchase, and the purchase succeeds | not executed | PurchaseRoutes.PurchaseWithTransactionAsWritten | PurchaseRoutes.PurchaseWithTransaction |
| routes/chat.js:216 | the preview adds '...' when the untrimmed content is longer than 50 code units | "hi" followed by 49 spaces gives the preview "hi..." | '...' only when the trimmed text was cut | not executed | ChatRules.PreviewAsWrittenMarksUncutText | ChatRules.Preview |
| public/js/chat.js:416-422 | `currentChatId` is set to the new chat before the leave, so the leave names the new chat and the previous room is never left | select chat 1, then chat 2: the socket stays in rooms 1 and 2 | leave the previous chat's room, then join the new one | not executed | ChatClient.RoomsAsWrittenAccumulate | ChatClient.RoomEventsSwitch |
| public/js/chat.js:583-588 | `tempId` is declared inside the `try` block, so the `catch` block throws a reference error | a send whose request fails on the network: the optimistic message stays and no alert shows | remove the optimistic element and alert | not executed | ChatClient.SettleSendAsWrittenKeepsTemp | ChatClient.SettleSend |
| public/js/collection-add.js:117 | the add-owner handler reads the undefined global `docuFRment` and throws | any click on "Add owner": no row is added | look up `owners-container` in `document` and append a row | not executed | CollectionAdd.OwnerAddedAsWrittenAddsNothing | CollectionAdd.OwnerAdded |
