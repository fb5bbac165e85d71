# classic_event token lifecycle, modelled in Dafny

This project models the four Netlify functions of classic_event that make up the token
lifecycle of a residential event:

- **generate-tokens** (`Issuance`, with `TokenFormat` and `Store`): it checks the request
  and walks the days of the request in `Object.entries` order. For each index `1..count`
  it builds a token id from the event, day, block, flat, index and a millisecond
  timestamp. It then builds a plain and an inline QR attachment and a preview. It creates
  the token's record in the Airtable table unless a lookup lists one, and it swallows
  every failure of that lookup or create. Last, it builds the day-wise HTML list of inline
  images for the notification mail.
- **redeem-token** (`Redemption`): a set of redeemed tokens kept in the memory of one
  function instance. A token is accepted the first time it is presented and rejected after.
- **add-token** (`AddToken`): the visible part of the handler. It checks the method and
  the required fields, then refuses (409) a token id the table already lists.
- **sendTokens** (`SendTokens`): a validator of block, flat and email, with the `trim()`
  semantics of JavaScript. A truthy block that is not a string makes `trim` throw, and so does
  a truthy non-string email once block and flat have passed; either gives 500.

`Js` holds the JavaScript values a parsed JSON body can hold and the built-ins the handlers
apply to them: truthiness, `String(v)`, `trim()`, `replace(/\s+/g, '')` and integer
rendering. External calls are inputs of the model:

- `Date.now()` is a per-token timestamp.
- Each Airtable lookup and create is a per-token reply (`TokenEnv`).
- A failure of `sendMail` is a `mailFault` parameter.
- A QR image is an opaque value that names the text it encodes.

The Airtable table is a sequence of rows in creation order. Airtable enforces no
uniqueness, so the model does not either.

The model follows the code as written:

- Issuance has no "already exists" or "not found" outcome. A failed lookup or create is
  logged and swallowed.
- Redemption keeps its state in an in-memory set. Any truthy token that is not in the set
  is redeemed; there is no check against the table.
- There is no compare-and-swap and no retry anywhere.

## Model

| member | source | states |
|---|---|---|
| Js.Trim | netlify/functions/sendTokens.js:25 | `trim()` gives a slice of the string that is empty exactly when the string is all whitespace, and otherwise starts and ends with a non-whitespace character; only whitespace is cut off on either side |
| Js.Truthy | netlify/functions/generate-tokens.js:29 | `!v` is true exactly for `undefined`, `null`, `false`, `0` and the empty string; every object or array is truthy |
| Js.ToStr | netlify/functions/generate-tokens.js:41 | `String(v)` as a template literal or `toString()` renders it: a string as itself, an integer in decimal with a leading `-` when negative, `undefined`, `null`, `true`, `false` as words |
| Js.IsWhitespace | netlify/functions/sendTokens.js:25 | the ECMAScript WhiteSpace and LineTerminator code points, which `trim()` cuts off and `\s` matches |
| Js.RemoveWhitespace | netlify/functions/generate-tokens.js:41 | `replace(/\s+/g,'')` leaves no whitespace, keeps every other character with its multiplicity, and is the identity on a string without whitespace |
| Js.RemoveWhitespaceAppend | netlify/functions/generate-tokens.js:41 | the removal distributes over concatenation, so the kept characters stay in their original order |
| Js.NatStr | netlify/functions/generate-tokens.js:41 | `${i}` of a non-negative integer is a non-empty string of decimal digits |
| Js.NatStrRoundTrip | netlify/functions/generate-tokens.js:41 | reading back the decimal rendering of a number gives the number |
| Js.NatStrInjective | netlify/functions/generate-tokens.js:41 | distinct numbers render differently |
| Store.Matching | netlify/functions/generate-tokens.js:59-65 | the rows the model takes a `{tokenID}='<id>'` lookup to list: rows with that id only, at least one exactly when the table holds one (the unencoded query string is under "Left out") |
| Store.Table.constructor | netlify/functions/generate-tokens.js:6-8 | the Airtable table "Table 1" as it stands before the request: nothing in the handlers creates it, so it starts from the given rows |
| Store.Table.Append | netlify/functions/generate-tokens.js:66-81 | a successful create appends the record after every existing row and changes nothing else |
| TokenFormat.TokenId | netlify/functions/generate-tokens.js:41 | the id is the whitespace-free event name, `_Day`, the day key, `_`, block, `-`, flat, `_T`, the index and `_` with the millisecond timestamp; `TokenIdInjective` shows it determines day, index and timestamp |
| TokenFormat.Filename | netlify/functions/generate-tokens.js:46 | the plain file of token i of a day is `Day<day>_token_<i>.png`; the inline copy prefixes `inline-` (`AttachmentsAt`) |
| TokenFormat.Cid | netlify/functions/generate-tokens.js:47 | the content id `qr<day>_<i>@<block><flat>`, the same text the day list rebuilds at line 102; `CidInjective` shows distinct tokens get distinct ones |
| TokenFormat.Label | netlify/functions/generate-tokens.js:55 | a preview's caption is `Day <day> - Token <i>` |
| TokenFormat.Resident | netlify/functions/generate-tokens.js:76 | a created record's `flatNo` is block and flat joined by `-` |
| TokenFormat.TokenIdInjective | netlify/functions/generate-tokens.js:41 | in one request context, two tokens share an id only when day, index and timestamp are all equal; distinct indices give distinct ids |
| TokenFormat.IdHeadInjective | netlify/functions/generate-tokens.js:41 | the part of an id before `T<i>` determines the day key |
| TokenFormat.CidInjective | netlify/functions/generate-tokens.js:47 | in one request context distinct tokens get distinct content ids |
| Issuance.Outcome | netlify/functions/generate-tokens.js:10-166 | non-POST gives 405 with nothing issued and the table unchanged; 400 with "Missing required fields" exactly when a required field is falsy; 500 with the exception when the body does not parse, when `days` is null (`Object.entries` throws) or when a non-string event name meets its first token (`eventName.replace` throws); a mail is sent exactly when the request is complete, `days` is not null and the event name is a string or no token is asked for, and it then holds the contributor's address, the rendered day list and the attachments of every token, while the table is the store run over every token; without a mail the table is unchanged; 200 exactly when a mail is sent and `sendMail` did not throw, carrying the previews of every token in loop order (`Total(days)` of them, with `2 * Total(days)` attachments); a `sendMail` fault gives 500 with that fault |
| Issuance.Handle | netlify/functions/generate-tokens.js:10-166 | the handler's response, mail and table are those `Outcome` gives for the request, the per-token replies and the table beforehand |
| Issuance.IssueTokens | netlify/functions/generate-tokens.js:38-93 | the nested loops yield the previews and attachments of every token in day-then-index order and the table after every token's store step; a non-string event name throws on the first token, before any write |
| Issuance.IssueDay | netlify/functions/generate-tokens.js:40-92 | the inner loop extends previews, attachments and table by the tokens `1..count` of one day |
| Issuance.IssueOne | netlify/functions/generate-tokens.js:41-91 | one token's id, plain and inline attachment and preview, and one store step on the table |
| Issuance.DaySlots | netlify/functions/generate-tokens.js:40 | the inner loop visits indices `1..count`, in order |
| Issuance.Previews | netlify/functions/generate-tokens.js:55 | one preview per token |
| Issuance.Attachments | netlify/functions/generate-tokens.js:50-51 | two attachments per token |
| Issuance.PreviewsAt | netlify/functions/generate-tokens.js:55 | the k-th preview has the k-th token's label, id and QR image |
| Issuance.AttachmentsAt | netlify/functions/generate-tokens.js:46-51 | the k-th token's plain file sits at 2k and its inline copy with its content id at 2k + 1 |
| Issuance.RowOf | netlify/functions/generate-tokens.js:73-79 | the created record holds the token id, `block-flat`, the day key and a null `RedeemedOn` |
| Issuance.StoreStep | netlify/functions/generate-tokens.js:58-91 | a token's record is created, appended after the existing rows, exactly when the lookup did not throw, did not list a record with that id, and the create succeeded; otherwise the table is unchanged |
| Issuance.StoreRun | netlify/functions/generate-tokens.js:58-91 | the table after the store steps of the tokens, one after the other in loop order, each against the table the previous ones left; `StoreRunAppends` and `StoreRunKeepsIdsUnique` state what it does |
| Issuance.StoreRunAppends | netlify/functions/generate-tokens.js:73-79 | the table only grows at its end; every new row is the record of a token of the batch whose lookup did not throw and whose create succeeded, with `flatNo = block-flat` and `RedeemedOn` null |
| Issuance.StoreRunKeepsIdsUnique | netlify/functions/generate-tokens.js:65 | create-if-absent keeps ids unique in the table as long as every lookup that did not throw came back with a `records` list |
| Issuance.StoreRepliesDoNotMatter | netlify/functions/generate-tokens.js:82-91 | the replies of the table, failed ones included, change neither the response nor the mail: every token is still issued |
| Issuance.TokenStepSnoc | netlify/functions/generate-tokens.js:50-91 | one more token appends its preview, its two attachments and its store step |
| Issuance.Total | netlify/functions/generate-tokens.js:38-40 | the number of tokens a request asks for, the sum over its days of `max(count, 0)`; `SlotsCount` shows the loops visit that many |
| Issuance.Slots | netlify/functions/generate-tokens.js:38-40 | the tokens in the order the nested loops visit them: the days in entry order, each with indices `1..count` |
| Issuance.TotalSnoc | netlify/functions/generate-tokens.js:38-40 | one more day adds `max(count, 0)` tokens |
| Issuance.SlotsCount | netlify/functions/generate-tokens.js:38-40 | the loops visit exactly the sum over days of `max(count, 0)` tokens |
| Issuance.SlotsSnoc | netlify/functions/generate-tokens.js:38-40 | one more day appends that day's tokens |
| Issuance.SlotsPrefixShorter | netlify/functions/generate-tokens.js:38 | the first days have no more tokens than all days |
| Issuance.SlotsPrefix | netlify/functions/generate-tokens.js:38 | the tokens of the first days come first, in the same order |
| Issuance.SlotPosition | netlify/functions/generate-tokens.js:38-40 | token i of day e is at position `Total(days before e) + i - 1` |
| Issuance.SlotOrigin | netlify/functions/generate-tokens.js:38-40 | every visited token belongs to a day of the request, with an index in `1..count` |
| Issuance.SlotsDistinct | netlify/functions/generate-tokens.js:38-40 | with distinct day keys no token is visited twice |
| Issuance.BatchIdsDistinct | netlify/functions/generate-tokens.js:41 | within one batch the preview ids are pairwise distinct, whatever the clock says |
| Issuance.IssuedInDayOrder | netlify/functions/generate-tokens.js:38-55 | token i of day e gets the preview and the plain/inline attachment pair at its day-then-index position |
| Issuance.DayListHtml | netlify/functions/generate-tokens.js:96-107 | the loop builds the rendering of the day-list sections |
| Issuance.AppendSection | netlify/functions/generate-tokens.js:99-106 | a day with a positive count adds its heading, its count, its items and the closing tag |
| Issuance.AppendDayItems | netlify/functions/generate-tokens.js:101-104 | the inner loop adds one `<li>` per token of the day, in index order |
| Issuance.Sections | netlify/functions/generate-tokens.js:97-106 | the sections of the day list, one per day with a positive count, each holding the items of that day's tokens; `SectionsShape` states their shape |
| Issuance.RenderSections | netlify/functions/generate-tokens.js:96-107 | `dayListHtml` is the sections' HTML one after the other; `DayListHtml` is proved to build it |
| Issuance.SectionHead | netlify/functions/generate-tokens.js:100 | a section opens with `<h4>Day <day></h4>`, `<p>Number of tokens: <count></p>` and `<ul>` |
| Issuance.ItemHtml | netlify/functions/generate-tokens.js:103 | an item is a `<li>` naming the day and index with an `<img>` whose `src` is `cid:` and the token's content id |
| Issuance.SectionsStep | netlify/functions/generate-tokens.js:99 | a day adds a section when its count is positive and nothing otherwise |
| Issuance.SectionsShape | netlify/functions/generate-tokens.js:97-106 | the day list has one section per day with a positive count, in order, each with exactly `count` items for tokens `1..count` |
| Issuance.ItemsOf | netlify/functions/generate-tokens.js:101-104 | one item per token |
| Issuance.ItemsOfAt | netlify/functions/generate-tokens.js:102-103 | the k-th item is the k-th token's day, index and content id |
| Issuance.ItemsOfAppend | netlify/functions/generate-tokens.js:97-104 | the items of two token runs are those of each, one after the other |
| Issuance.DayListInTokenOrder | netlify/functions/generate-tokens.js:97-106 | the day list shows every issued token once, in the order the token loop issued them |
| Issuance.DayListMatchesAttachments | netlify/functions/generate-tokens.js:97-106 | the k-th image of the day list names, by content id, the inline attachment of the k-th token |
| Redemption.Redeemed | netlify/functions/redeem-token.js:25 | `redeemedTokens.has(token)`: a primitive token is found when the set holds an equal value; a token parsed as an object or array is a new object and is never found |
| Redemption.Step | netlify/functions/redeem-token.js:7-45 | 405 for another method, 500 with the parse error's message, 400 "Missing token" for a falsy token, 400 "Token already redeemed" exactly when the set has the token, 200 exactly otherwise; the set becomes set ∪ {token} on 200 and is unchanged on every other path |
| Redemption.RedeemedTokens.constructor | netlify/functions/redeem-token.js:5 | a fresh instance starts with an empty set |
| Redemption.RedeemedTokens.Handle | netlify/functions/redeem-token.js:7-45 | the handler's response and new set are those of `Step` on the old set |
| Redemption.Run | netlify/functions/redeem-token.js:5-45 | successive calls on one instance give one response per request |
| Redemption.RunAt | netlify/functions/redeem-token.js:25-37 | the k-th response is the step taken from the set the earlier requests left |
| Redemption.RunGrows | netlify/functions/redeem-token.js:25-32 | the set only grows over any sequence of requests |
| Redemption.RedeemedStaysRedeemed | netlify/functions/redeem-token.js:25-32 | after a 200 for a token, every later request for it gets 400 "Token already redeemed" |
| Redemption.RedeemedAtMostOnce | netlify/functions/redeem-token.js:25-37 | over any sequence of requests a (non-object) token gets 200 at most once |
| Redemption.InitiallyRedeemedNeverAccepted | netlify/functions/redeem-token.js:25-30 | a token already in the set is never accepted |
| AddToken.Decide | netlify/functions/add-token.js:7-30 | 405 exactly for another method; a parse error exactly for a malformed body; 400 exactly when a field is falsy, whatever the table holds; a lookup error exactly when the lookup throws, each carrying the thrown message; 409 exactly when the listed records hold the token id; the create step is reached exactly when the lookup came back without records or listed none with that id |
| AddToken.SecondAddRefused | netlify/functions/add-token.js:19-27 | once the table holds a record with the id, a request for that id gets 409 |
| SendTokens.CheckFields | netlify/functions/sendTokens.js:25 | the condition passes exactly when block and email are non-blank strings and flat is truthy with a non-blank `toString()`; it throws exactly when a truthy non-string block, or with a good block and flat a truthy non-string email, reaches `trim`, and the exception then names the field whose `trim` is missing |
| SendTokens.Handle | netlify/functions/sendTokens.js:14-46 | 200 `{success:true}` exactly when the check passes, 400 with the missing-fields error exactly when it fails, 500 exactly when the body does not parse or `trim` throws, always with `success:false` and the exception's message as `error`; donation and day tokens play no part |
| SendTokens.PaddingIgnored | netlify/functions/sendTokens.js:25 | surrounding a string block with whitespace does not change the status |

## Left out

- QR rendering (`QRCode.toBuffer`) and the base64 data URLs are a foreign library. A QR image is an opaque value naming its text, so a failure of `toBuffer` is not modelled.
- Mail configuration and composition are left out: the nodemailer transporter, SMTP settings, sender, subject, and the HTML body apart from the day list. The UPI link is left out too, including the `URIError` that `encodeURIComponent` raises on a lone surrogate. A failure of `sendMail` is the `mailFault` parameter.
- Airtable HTTP is left out: URLs, the filter formula's quoting and `fetch`. Each lookup is a reply (it throws, it has no `records` list, or it lists records); each create is a reply (ok, or failed or thrown).
- Issuance.StoreStep: a listed lookup is taken to list exactly the rows whose `tokenID` equals the id (`Matching`). Line 59 of generate-tokens.js puts the id into the query string without encoding it, so an id holding `%`, `&`, `#`, `+` or `'` can reach Airtable as a different filter: it may list no row for an id the table holds (a duplicate create) or rows of another id (a skipped create). The model also takes the table to be unchanged between a token's lookup and its create, although a concurrent call can create the same id in between.
- Issuance.StoreRunKeepsIdsUnique: holds only under the two assumptions of the previous line, the exact lookup and no write by another call between lookup and create; neither is guaranteed by generate-tokens.js or Airtable.
- AddToken.Decide: the lookup at line 19 of add-token.js has the same unencoded id, and the same race with a concurrent create, so its 409 is decided against the rows an exact lookup would list.
- `Date.now()` is one input value per token. Global id uniqueness is not claimed, because the same context, index and millisecond give the same id.
- `Object.entries` order is an input. Integer-like keys come first, ascending, then the other keys in insertion order. Lemmas that need distinct day keys require them.
- Counts are integers. `Number(countRaw || 0)` giving NaN behaves like 0 in both loops. Fractional and infinite counts, and the donation sums of the mail body, are floating point and are not modelled.
- JSON numbers are integers rendered in plain decimal. A number in `blockNo` or `flatNo` (generate-tokens.js lines 41, 47 and 76), in `flat` (its `toString()` at sendTokens.js line 25) or in `token` (the set lookup at redeem-token.js line 25) that is fractional, at least 1e21 or beyond 2^53 renders or compares as JavaScript's floating point does (`1.5`, `1e+21`, rounded digits), which the model does not capture.
- JSON objects and arrays are a value standing for their `toString()` text. An object whose own `toString` or `trim` property shadows the built-in is not modelled.
- Redemption.Redeemed: a token parsed as an object or array is a new object on every request, and `Set.has` compares objects by identity. So such a token is never found, and it is redeemed again on every request; the at-most-once lemmas cover non-object tokens only.
- Redemption: the set lives in one function instance. Cold starts, parallel instances and concurrent requests are left out.
- AddToken.Decide: the record creation after line 30 of add-token.js and the `catch` that would handle its exceptions are not part of this model, so an exception is reported as `Raised`.
- Console logging is left out.
- src/App.js and public/form.js are not part of this model: they are the form UI that posts requests and shows images.
