# Valentine gift maker: a Dafny model of its checkout, publishing and live preview

The system sells personalised valentine pages. A buyer picks a theme and a
set of paid features in a builder and gets a price and a UPI payment link
(`POST /api/create-order`). The buyer then confirms the payment with a
transaction id (`POST /api/confirm-payment`), which marks the order paid and
publishes a valentine under a short id. The recipient opens `/v/<id>`. There
the theme's template is served with the stored configuration injected as a
script, and every visit is counted. Signed-in users list their own orders and
valentines, and an admin endpoint reports counts, revenue and views. Users
register, log in and log out through a JSON Web Token carried in a cookie or
a `Bearer` header. Two middlewares read that token: one lets every request
through, the other answers 401.

While the buyer edits, the builder page posts `UPDATE_CONFIG` messages into
the template frame. The cosmic template merges each message into its `CONFIG`
object and rebuilds the parts of the page that show the merged fields. The
universal features script renders a timeline, a gallery and a gift section
into its own container. It also keeps one floating music player at the end
of the body.

The model is split into these modules:

- `Js`: JavaScript conventions. These are possibly-undefined strings, truthiness, `${x}` text, `value || {}`, a string's `.length` in UTF-16 code units and the decimal text of a number.
- `Strings`: split and join on a separator, the first occurrence of a pattern, `String.prototype.replace` with a string pattern, and lower-casing of the ASCII letters.
- `Sums` and `Queries`: sums over a collection, `findOne(filter)`, `find(filter)`, `countDocuments` and `sort({ createdAt: -1 })` on a collection held as a list.
- `Pricing`: the price table and the order total.
- `Upi`: the payment link and a reader for it.
- `Models`: the Order and Valentine schemas, with their required fields, enum and defaults.
- `Server`: the checkout, publish, serve, listing and statistics endpoints. The store is a `Database` class whose methods update the two collections.
- `AuthRoutes`: register, login and logout. Registration is a `UserStore` class.
- `AuthMiddleware`: the `auth` and `requireAuth` middlewares, over a `Request` object whose `user` field they set.
- `Builder`: the `UPDATE_CONFIG` message and its payload.
- `Cosmic`: the cosmic template's `CONFIG`, its merge and the page it rebuilds. The page is a `CosmicPage` class with one field per element.
- `UniversalFeatures`: the universal features script over the page body. The body is a `Page` class.

The token signer and verifier, the password check, `JSON.stringify`, the id
generator, the clock and the template files are all parameters of the
operations that use them.

## Model

| member | source | states |
|---|---|---|
| Pricing.Price | server/server.js:59-73 | One element adds its table price, or nothing for an unknown key. Every listed price is positive. |
| Pricing.Total | server/server.js:94-99 | A total is at least the base price 49, and exactly 49 when `features` is missing or not an array. |
| Pricing.OrderTotal | server/server.js:94-99 | The create-order loop, pricing own keys of the table only, computes `Total`: the corrected total of the first finding. |
| Pricing.TotalIgnoresOrder | server/server.js:95-98 | Two feature lists that are permutations of each other cost the same. |
| Pricing.UnknownKeyIgnored | server/server.js:97 | An unknown key anywhere in the list leaves the total unchanged. |
| Pricing.RepeatedKeyChargedAgain | server/server.js:94-98 | A repeated key is charged again on every occurrence. `base_theme` in the list doubles the base price to 98. |
| Pricing.GalleryAndMusicExample | server/server.js:59-73 | Gallery plus music on the base theme costs 87. |
| Pricing.AsWrittenAgreesOnOwnKeys | server/server.js:94-99 | The source's loop with JavaScript `+` gives `Total` whenever no key is inherited from `Object.prototype`. |
| Pricing.ConstructorKeyCounterexample | server/server.js:97 | For `["constructor"]` the source's total becomes a string, while the intended total is 49. |
| Upi.Params | server/server.js:102 | A reader the server never runs, used only to state `LinkRoundTrip`: it splits a `upi://pay?` link into its parameters and rejects any other text. |
| Upi.Lookup | server/server.js:102 | The other half of that reader: when a value is found, `key=value` is one of the parameters, and when none is found, no parameter has that key. |
| Upi.ParamsOfLink | server/server.js:102 | The link splits back into its five parameters, in order, as long as the payee and the order id hold no `&`. |
| Upi.LinkRoundTrip | server/server.js:102 | Reading the link back gives the payee, the amount (which parses back to the total), `Order_<orderId>` and `INR`. |
| Js.TextCollision | server/templates/cosmic/config.js:129-133 | `${x}` prints an undefined field as "undefined", so the markup cannot tell it from the string "undefined". Every other two values print differently. |
| Js.TextContentCollision | server/templates/cosmic/config.js:145 | Assigning undefined to `textContent` empties the element just as the empty string does. Every other two values give different text. |
| Js.OrEmptyObject | server/server.js:156 | The fallback to `{}` keeps a truthy config and replaces anything else by `{}`. The result is always truthy. |
| Js.Utf16Length | server/server.js:131 | `.length` counts UTF-16 code units: at least the number of characters, at most twice it, and equal to it for text inside the Basic Multilingual Plane. |
| Js.Utf16LengthAppend | server/routes/auth.js:22 | The `.length` of a concatenation is the sum of the lengths. |
| Js.Decimal | server/server.js:102 | The text of an amount is non-empty, all digits, and has no leading zero. |
| Js.ParseDecimal | server/server.js:102 | A text parses exactly when it is a non-empty string of digits. |
| Js.DecimalRoundTrip | server/server.js:102 | The decimal text of a number parses back to that number. |
| Strings.SplitJoin | server/middleware/auth.js:7 | Joining the pieces of a split with the separator gives the original text. |
| Strings.JoinSplit | server/server.js:102 | Splitting a join of separator-free pieces gives the pieces back. |
| Strings.IndexOf | server/server.js:211 | The result is the first position where the pattern occurs, or None when it occurs nowhere. |
| Strings.InsertBeforeFirst | server/server.js:211 | Replacing the first `</head>` by `script + "</head>"` inserts the script there and nowhere else, and changes nothing when there is no `</head>`. |
| Strings.AsWrittenAgreesWithoutDollar | server/server.js:211 | JavaScript's `replace` with a `$`-free replacement is the literal replacement. |
| Strings.DollarAmpersandCounterexample | server/server.js:211 | A `$&` anywhere in a replacement that holds no other `$` is replaced by the matched `</head>`, so JavaScript's `replace` differs from the literal insertion. |
| Strings.ExpandAmpersandInside | server/server.js:211 | GetSubstitution copies the `$`-free text on both sides of a `$&` and puts the matched text in its place. |
| Strings.Lower | server/routes/auth.js:27 | `toLowerCase` restricted to ASCII: it lower-cases `A`-`Z`, keeps every other character, and keeps the length. |
| Strings.LowerIsNormal | server/routes/auth.js:27-34 | Lower-casing gives lower-case text, is idempotent, and leaves lower-case text alone. |
| Models.ParseStatus | server/models/Order.js:20-24 | A status string is accepted exactly when it is `pending`, `paid` or `failed`. |
| Models.StatusRoundTrip | server/models/Order.js:20-24 | Every status reads back from its name. |
| Server.StoredFeaturesPrice | server/server.js:94-112 | A bare string `features` is charged only the base price, since it is not an array, but is stored as a one-element list. That list would cost more for a priced feature. Any other value is stored exactly as it was priced. |
| Server.MusicAsBareString | server/server.js:94-112 | `features: "feature_music"` pays 49 and stores `["feature_music"]`, which as a list costs 68. |
| Models.NewOrder | server/models/Order.js:3-32 | An order is created exactly when `orderId` and `amount` are present and the status is a valid enum value. The status defaults to pending, `createdAt` to the creation time, and the payment fields start empty. |
| Models.NewOrderKeepsOptionalFields | server/models/Order.js:9-19 | The user, theme and features are stored as given. |
| Models.NewValentine | server/models/Valentine.js:3-36 | A valentine is created exactly when `valentineId` and `theme` are present. `config` defaults to `{}`, `views` to 0, `isActive` to true and `createdAt` to the creation time. |
| Models.NewValentineKeepsOptionalFields | server/models/Valentine.js:9-23 | The user, order id and features are stored as given. |
| Models.FindOrder | server/models/Order.js:4-8 | A found position holds that order id. None means no order has it. |
| Models.FindValentine | server/models/Valentine.js:4-8 | A found position holds that valentine id. None means no valentine has it. |
| Models.FindOrderUnique | server/models/Order.js:4-8 | Under the unique index, the lookup finds the only order with that id. |
| Models.FindValentineUnique | server/models/Valentine.js:4-8 | Under the unique index, the lookup finds the only valentine with that id. |
| Queries.FindOne | server/server.js:139 | `findOne(filter)` finds the first matching document, or None exactly when no document matches. |
| Queries.Filter | server/server.js:229 | `find(filter)` returns only matching documents, each as often as stored, and never one that does not match. |
| Queries.FilterSplit | server/server.js:254-255 | Every document matches a filter or its negation, never both. |
| Queries.SumOverFilter | server/server.js:259-260 | Summing over the matching documents equals summing a weight that is zero on the others. |
| Queries.Insert | server/server.js:229 | Inserting into a newest-first list keeps it newest first and adds exactly that one element. |
| Queries.InsertBehindHead | server/server.js:229 | Inserting behind a newer head keeps the list newest first and adds exactly the inserted element. |
| Queries.ConsSorted | server/server.js:229 | An element no older than the head of a newest-first list can go in front. |
| Queries.SortDesc | server/server.js:229 | `sort({ createdAt: -1 })` gives a newest-first permutation of its input. |
| Server.StringArrayRoundTrip | server/server.js:208 | The page reads `window.VALENTINE_FEATURES` back as exactly the stored features, in order. |
| Server.ThreeEmojiPass | server/server.js:131 | Three emoji, three characters but six UTF-16 code units, pass the transaction-id length guard. |
| Server.ServedDollarAmpersand | server/server.js:204-211 | When the stored config stringifies to text with a `$&` and no other `$`, the page the source serves has `</head>` pasted into the script in place of the `$&`, and differs from `InjectConfig`. |
| Server.DollarAmpersandInScript | server/server.js:211 | The same for any `$`-free script text around the stringified config. |
| Server.InjectConfig | server/server.js:211 | The config script lands immediately before the first `</head>` and nowhere else. Removing it gives back the template, and a template without `</head>` is unchanged. |
| Server.FindOrderBy | server/server.js:139 | A missing `orderId` finds nothing. Otherwise the result is the order with that id, or None when there is none. |
| Server.MarkPaid | server/server.js:144-148 | The order becomes paid with the transaction id, the valentine id and the payment time. Every other field is kept. |
| Server.MarkPaidTwice | server/server.js:144-148 | Marking an order paid again only overwrites the payment fields. |
| Server.Database.constructor | server/server.js:106 | A new store is empty and satisfies the unique indexes. |
| Server.Database.CreateOrder | server/server.js:90-123 | The total (the corrected `Total` of the first finding) and the payment link are replied. Without a database nothing is stored. With one, a pending order with these fields and no payment data is appended. A taken order id is a 500 that stores nothing. |
| Server.Database.ConfirmPayment | server/server.js:127-174 | A transaction id that is missing or shorter than six UTF-16 code units is a 400, and an unknown order is a 404; neither changes anything. Otherwise the order is marked paid whatever its status. One valentine with the order's theme and features and the given config (or `{}`) is appended. When that creation fails, the reply is 500 but the order stays paid. |
| Server.Database.ServeValentine | server/server.js:177-215 | An unknown id is a 404 that changes nothing. A known valentine's views rise by exactly one. Then either its template is served with the config script inserted literally before `</head>` (the corrected injection of the second finding), or the client is redirected to the static template. |
| Server.ConfirmTwice | server/server.js:139-158 | Confirming one order twice publishes two valentines, because confirm-payment never checks the status. |
| Server.MyOrders | server/server.js:237-248 | 401 exactly when nobody is signed in. Otherwise exactly the user's orders, each as often as stored, newest first. |
| Server.MyValentines | server/server.js:223-234 | 401 exactly when nobody is signed in. Otherwise exactly the user's valentines, each as often as stored, newest first. |
| Server.Stats | server/server.js:251-276 | The stats need a database. `totalOrders` and `totalValentines` count the collections. Paid plus pending orders equals all orders. |
| Server.StatusCounts | server/models/Order.js:20-24 | Every order is paid, pending or failed. |
| Server.PendingIncludesFailed | server/server.js:268 | `pendingOrders` also counts failed orders. |
| Server.RevenueOfPaidOrders | server/server.js:259-260 | Revenue is the sum of the paid orders' amounts. It is never negative when no amount is. |
| Server.ServeAddsOneView | server/server.js:262-263 | Serving a valentine adds exactly one to the total views. |
| Server.CreatedOrderAddsNoRevenue | server/server.js:259-260 | A new pending order adds one pending order and no revenue. |
| Server.PaymentAddsAmount | server/server.js:259-260 | Marking an unpaid order paid adds exactly its amount to the revenue. |
| AuthRoutes.PublicHidesOnlyPassword | server/routes/auth.js:51-55 | The response user hides the password and nothing else: two users look the same exactly when they differ at most in their passwords. |
| AuthRoutes.PublicHidesPassword | server/routes/auth.js:49-57 | No response depends on the password. |
| AuthRoutes.CookieLifetimeMatchesToken | server/routes/auth.js:86-93 | A successful login's token is signed with the `expiresIn` that denotes exactly the cookie's `maxAge`. |
| AuthRoutes.SessionExpiry | server/routes/auth.js:9-11 | `expiresIn: '7d'` denotes 604800000 ms, the session cookie's `maxAge`. |
| AuthRoutes.LogoutUndoesSessionCookie | server/routes/auth.js:43-47 | After the session cookie is set, the browser holds the token under `token`. A logout then leaves exactly the other cookies it had before. |
| AuthRoutes.FindByEmail | server/routes/auth.js:27 | A found position holds that email. None means no user has it. |
| AuthRoutes.FindById | server/middleware/auth.js:22 | A found position holds that id. None means no user has it. |
| AuthRoutes.RegisterRefusal | server/routes/auth.js:18-30 | The guards apply in the source's order: missing fields, then a password shorter than six UTF-16 code units, then an existing lower-cased email. Every refusal is a 400. |
| AuthRoutes.UserStore.constructor | server/routes/auth.js:33 | A new store is empty and valid. |
| AuthRoutes.UserStore.Register | server/routes/auth.js:14-57 | A refusal changes nothing. An accepted request stores the user under the lower-cased email and keeps the store's emails and ids unique. It answers with the public fields, a token signed with the seven-day lifetime, and the session cookie. |
| AuthRoutes.Login | server/routes/auth.js:65-103 | 400 exactly when the email or the password is missing. Success exactly when the lower-cased email is stored and the password check accepts, with a token signed with the seven-day lifetime and the cookie. Every other case is the same 401. |
| AuthRoutes.ApplyCookie | server/routes/auth.js:43-47 | Setting a cookie stores its value and clearing it removes it. Other cookies are untouched. |
| AuthRoutes.DuplicateEmailIgnoresCase | server/routes/auth.js:27-29 | A second registration whose email differs only in case is refused. |
| AuthRoutes.LoginFindsRegisteredUser | server/routes/auth.js:74-86 | After registering, a login with the same email in any case finds the user and succeeds exactly when the password check accepts. |
| AuthMiddleware.TokenFrom | server/middleware/auth.js:7 | A truthy cookie token wins. Otherwise the token is the header's second space-separated word, and there is none without a header or without a space. |
| AuthMiddleware.BearerHeader | server/middleware/auth.js:7 | `Bearer <token>` yields the token when no cookie is set. |
| AuthMiddleware.HeaderWithoutSpace | server/middleware/auth.js:7 | A header without a space yields no token. |
| AuthMiddleware.Identify | server/middleware/auth.js:4-28 | No token, a token the verifier rejects, and an unknown user are told apart. A user is known exactly when the decoded id is stored, and the result is then that user without the password. |
| AuthMiddleware.RefusalsDistinct | server/middleware/auth.js:35-50 | The three 401 messages of `requireAuth` are non-empty and pairwise different, so each failure is told apart. |
| AuthMiddleware.Request.constructor | server/middleware/auth.js:4 | A request starts with no user. |
| AuthMiddleware.Auth | server/middleware/auth.js:4-28 | `auth` always continues. It sets the user exactly when one is identified, and otherwise sets it to null. |
| AuthMiddleware.RequireAuth | server/middleware/auth.js:31-51 | `requireAuth` continues exactly when a user is identified, and sets it. Otherwise it answers 401 with the matching message and leaves the request alone. |
| AuthMiddleware.SameDecision | server/middleware/auth.js:4-51 | On the same request, the strict middleware lets it through exactly when the lenient one signs a user in, and both see the same user. |
| AuthMiddleware.LoginCookieIdentifies | server/routes/auth.js:86-93 | The cookie a login sets identifies the same user on the next request. |
| AuthMiddleware.LogoutDropsCookieToken | server/routes/auth.js:112 | After logout no cookie token is left, and only the header can carry one. |
| Cosmic.Merge | server/templates/cosmic/config.js:106-160 | The five scalar fields change only for truthy values. Music is on exactly when an array `features` lists `feature_music`. The timeline and gallery change only for arrays, and the quiz whenever it is truthy. |
| Cosmic.MergeKeepsFixedFields | server/templates/cosmic/config.js:5-95 | No message changes the fields it does not name. |
| Cosmic.MergeIgnoresCountdown | server/templates/cosmic/config.js:174-197 | The countdown is never stored in `CONFIG`. |
| Cosmic.MergeIdempotent | server/templates/cosmic/config.js:106-160 | Merging the same payload twice is merging it once. |
| Cosmic.MusicFollowsFeatures | server/templates/cosmic/config.js:111-113 | With an array `features`, music is on exactly when `feature_music` is listed. Without one it stays as it was. |
| Cosmic.TimelineCards | server/templates/cosmic/config.js:126-135 | One timeline item per entry, in order. |
| Cosmic.GalleryImages | server/templates/cosmic/config.js:164-169 | One image per URL, in order, with `alt="Memory"`. |
| Cosmic.Handle | server/templates/cosmic/config.js:100-217 | A message of any other type changes nothing. `UPDATE_CONFIG` stores the merge. |
| Cosmic.HandleIdempotent | server/templates/cosmic/config.js:100-217 | Handling the same message twice leaves the page as handling it once. |
| Cosmic.VisibilityGating | server/templates/cosmic/config.js:120-171 | A hidden timeline or quiz keeps its old children, and a visible timeline shows the new entries. The gallery is rebuilt whether shown or not, and keeps its visibility. |
| Cosmic.PartnerTitles | server/templates/cosmic/config.js:200-204 | A partner name retitles the page `For <name>` and the letter `My Dearest <name>,`. |
| Cosmic.SenderFromEarlierMessage | server/templates/cosmic/config.js:209-210 | The sender line shows the stored sender name, even one set by an earlier message. |
| Cosmic.CosmicPage.constructor | server/templates/cosmic/config.js:5-95 | A loaded page holds the literal `CONFIG` and the markup's elements. |
| Cosmic.CosmicPage.OnMessage | server/templates/cosmic/config.js:100-217 | The listener brings the page to `Handle` of its old state. |
| Cosmic.CosmicPage.MergeConfig | server/templates/cosmic/config.js:106-160 | The `CONFIG` assignments compute `Merge`. |
| Cosmic.CosmicPage.RenderTimeline | server/templates/cosmic/config.js:123-136 | The timeline loop rebuilds a shown timeline from the stored entries. |
| Cosmic.CosmicPage.RenderQuiz | server/templates/cosmic/config.js:143-155 | The question is set whenever its element exists. The buttons, one per option in order, are rebuilt only while shown. |
| Cosmic.CosmicPage.RenderGallery | server/templates/cosmic/config.js:161-170 | The gallery loop rebuilds the gallery whenever it exists. |
| Cosmic.CosmicPage.RenderNames | server/templates/cosmic/config.js:200-210 | The title, letter heading, letter body and sender line follow the partner name, the message and the stored sender. |
| Cosmic.CosmicPage.RenderCountdown | server/templates/cosmic/config.js:174-197 | The countdown shows the target date when enabled and is emptied otherwise. A container created without `.paper` never reaches the page. |
| UniversalFeatures.ConcatMapAppend | public/universal-features.js:134-143 | The markup of a list is the markups of its parts, in order. |
| UniversalFeatures.TruthyUrls | public/universal-features.js:150-154 | Exactly the truthy URLs get an image, and never more images than URLs. |
| UniversalFeatures.GalleryImageCount | public/universal-features.js:150-154 | The gallery holds one image per truthy URL. |
| UniversalFeatures.SectionsPresence | public/universal-features.js:132-166 | Each section appears exactly when its field asks for it: a non-empty timeline, a non-empty gallery, a truthy gift URL. |
| UniversalFeatures.AssembleHtml | public/universal-features.js:129-166 | The string building computes the three sections in order. |
| UniversalFeatures.AppendTimelineItems | public/universal-features.js:134-143 | The timeline loop appends every item in order. |
| UniversalFeatures.AppendImages | public/universal-features.js:150-154 | The gallery loop appends an image for every truthy URL in order. |
| UniversalFeatures.FirstIndex | public/universal-features.js:10 | `getElementById` finds the first element with the id, or None when no element has it. |
| UniversalFeatures.Locate | public/universal-features.js:170 | The scan computes `FirstIndex`. |
| UniversalFeatures.Installed | public/universal-features.js:10-15 | After start-up the body has a container. |
| UniversalFeatures.InstalledContainerCount | public/universal-features.js:11-15 | A container is added only to a body without one. |
| UniversalFeatures.RenderBody | public/universal-features.js:128-194 | A render keeps the container. |
| UniversalFeatures.RenderPlayers | public/universal-features.js:169-183 | With a song, one old player is removed and the new one is appended as the last element. |
| UniversalFeatures.AtMostOnePlayer | public/universal-features.js:169-183 | A body with at most one player keeps at most one. |
| UniversalFeatures.RenderWithoutSong | public/universal-features.js:169-193 | Without a song only the container's markup changes. |
| UniversalFeatures.RenderFillsContainer | public/universal-features.js:193 | After a render the container holds exactly the new sections. |
| UniversalFeatures.Page.constructor | public/universal-features.js:203-206 | Start-up installs the container and, when `VALENTINE_CONFIG` is set, renders it. |
| UniversalFeatures.Page.Render | public/universal-features.js:128-194 | `renderUniversalFeatures` brings the body to `RenderBody` and keeps the container. |
| UniversalFeatures.Page.OnMessage | public/universal-features.js:197-201 | Only `UPDATE_CONFIG` re-renders. |

## Left out

- The QR-code URL of create-order is left out. It is a third-party URL built from the payment link.
- The 404 page's markup, the injected CSS block and the countdown container's inline styles are left out.
- Audio autoplay and the volume setting are left out.
- Console logging, Express routing, CORS, cookie parsing, dotenv and start-up are left out. The `/api/health` endpoint is left out too.
- `generateId` is a string parameter, because it uses `Math.random`.
- The clock (`new Date()`) is an integer parameter.
- Token signing and verification (`jsonwebtoken`), `comparePassword` and `JSON.stringify` are function parameters.
- Reading template files is a map from theme to file text. Template paths are not normalised, so a theme holding `..` is not modelled as reaching outside the templates directory.
- server/models/User.js is not part of this model. The user schema, the password hashing and the unique email index appear only through `ValidUsers` and the `matches` parameter.
- `GET /api/auth/me` and the classic and starlight template scripts are not modelled.
- The cosmic template's `updateContent` call is not modelled, because it lives in another file.
- Database errors are left out except the unique indexes. That covers failed writes, `findById` cast errors, and the 500 replies of login, register, serve, the listings and the stats.
- The source runs without a database (`MONGODB_URI` unset). In that mode the listings would query a missing connection. The model still answers them from the (empty) store.
- Concurrency between requests is left out. Each operation is atomic in the model.
- For documents with equal `createdAt`, the sort's tie order is not modelled. `SortDesc` produces one valid order of them.
- The DOM is flat. The universal body is its list of top-level elements, and the cosmic page is the elements the handler touches.
- `innerHTML` parsing is left out. A rebuilt container holds markup or labels, not parsed nodes.
- Payload fields are only strings, lists and records. A payload value of another JavaScript type (a number where a string is expected, say) is not modelled. Neither are the payloads on which the page scripts throw:
  - a truthy non-array `timeline` or `gallery` with a positive length, such as a string, which `forEach` rejects in public/universal-features.js:132-148 (the render then aborts, leaving the container and player as they were, while `Builder.Payload` reads the field as absent and renders the other sections);
  - an `UPDATE_CONFIG` message without a `payload`, on which server/templates/cosmic/config.js:102-105 throws.
- `Strings.Lower`: it lower-cases only `A`-`Z`. JavaScript's `toLowerCase` also maps non-ASCII letters (É to é, Σ to σ, and İ to two characters, which changes the length), so the model treats `émile@x.com` and `Émile@x.com` as two accounts where the source refuses the second. The Unicode case tables are not modelled.
- `Pricing.OrderTotal`: it follows the corrected total of the first finding and prices own keys of the table only. The loop as written, which also picks up inherited keys, is `Pricing.TotalAsWritten`.
- `Server.Database.CreateOrder`: it replies and stores the corrected `Total` of the first finding, not the as-written total. With an inherited key such as `constructor`, the source's total is a string.
- `Server.Database.ServeValentine`: it inserts the config script literally, the corrected behaviour of the second finding. The source's `replace` expands `$`-patterns in the script (`Strings.ReplaceFirstAsWritten`).
- `AuthRoutes.ExpiryMs`: it reads only the `<days>d` form of `expiresIn`. The other units of the token library's duration strings are not modelled.
- A request field that is not a string is not modelled, for example a numeric `transactionId`, whose `.length` is undefined and passes the length guard.
- `Js.Spaces`: its contract states only the length. The blanks are written out in its body.
- `Cosmic.Handle`: the page title and letter heading are built from the payload's partner name, not from `CONFIG.partnerName`. The two are equal because the merge has just copied that name.
- `UniversalFeatures.AssembleHtml`: it builds the three sections separately and concatenates them, instead of one running `html +=`. The resulting text is the same.
- `Server.Database.ConfirmPayment`: the confirmation's fixed success message and `success: true` are not part of the reply.
- `Server.FindOrderBy`: a missing `orderId` matches no order.
- `Cosmic.CosmicPage.RenderQuiz`: a quiz without an `options` array, which makes the source throw, is not modelled. The quiz's options are always a list.

Where the code and the written design disagree, the model follows the code:
- No order ever reaches an awaiting-verification status. The only statuses are pending, paid and failed.
- Confirm-payment does not check an order's prior status (see `Server.ConfirmTwice`).
- Serving a valentine does not check `isActive`.

## Findings

| source | as written | input that shows it | evidently intended | confidence | as-written member | corrected member |
|---|---|---|---|---|---|---|
| server/server.js:97 | `if (PRICING[f]) total += PRICING[f]` also finds keys that every object inherits | `features: ["constructor"]` gives the total `"49function Object() { [native code] }"`, a string. Without a database this string is the reply's `amount`. With one, the Number cast of `amount` fails in `Order.create` and the reply is the 500 "Order creation failed" | only the table's own keys are priced, so the total is 49 | not executed | Pricing.ConstructorKeyCounterexample | Pricing.Total |
| server/server.js:211 | `html.replace('</head>', configScript + '</head>')` expands `$&`, `` $` ``, `$'` and `$$` in the replacement | a stored config whose stringified text contains `$&`, such as a message `"$&"`, gets `</head>` pasted into the middle of the script | the script is inserted literally before `</head>` | not executed | Server.ServedDollarAmpersand | Server.InjectConfig |
