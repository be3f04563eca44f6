# GitHub Sponsors to Slack relay: verified model of the renderer

The relay is a Firebase HTTPS function. It receives GitHub `sponsorship`
webhook events and posts a formatted message to a Slack incoming webhook.
This project models its core, `functions/src/index.ts`, as pure Dafny:

- `Events`: the six-action `sponsorship` payload union. Each variant holds
  the common `sponsorship` (sponsor and sponsorable accounts, each with
  login, url, id and avatar URL; the tier's name and monthly price in
  dollars) and the variant's own declared fields (`changes.privacy_level.from`,
  `changes.tier.from`, `effective_date`). The renderer reads the sponsor's
  login, url, id and avatar, the sponsorable's login, url and id, and the
  tier; nothing reads the rest.
- `Slack`: the message shape. A message has the default `username` and
  `icon_url`, a plain-text fallback, and `section` blocks with `mrkdwn` text
  and an optional `image` accessory.
- `Decimal`: how a template literal renders an integer-valued number (`${id}`,
  `${monthly_price_in_dollars}`). `DecimalToInt` reads the digits back.
- `Sections`: `newSponsorSection` and `cancelledSponsorSection`. The
  cancelled text is written out separately, as in the source, and is proved
  to be the new-sponsor text between `~ ` and ` ~`. As in the source, the
  price label `($N.00/month)` runs into `sponsor of` with no space between
  them.
- `Dispatch`: the `sponsorship` handler. It makes two independent tests on
  the action tag. The model returns the sequence of messages the handler
  would send instead of sending them.
- `Router`: the HTTPS entry point. A request whose `x-github-event` header
  is loosely non-null (`!= null`) is delegated to the webhook middleware.
  Any other request gets status 400.

Only `created` and `cancelled` events are rendered. Their sections link each
account's `url`, labelled with its numeric `id`.

## Model

| member | source | states |
|---|---|---|
| `Events.ActionIdentifiesVariant` | functions/src/index.ts:20-68 | two payloads have the same `action` tag exactly when they are the same variant of the union, so testing the tag narrows the union |
| `Events.Event.Action` | functions/src/index.ts:20-68 | the `action` tag is `"created"` exactly for the created variant and `"cancelled"` exactly for the cancelled variant |
| `Decimal.IntToDecimal` | functions/src/index.ts:82-84 | `${n}` for an integer is non-empty, all digits exactly when `n` is non-negative, and starts with `-` exactly when `n` is negative |
| `Decimal.NatToDecimal` | functions/src/index.ts:82-84 | a non-negative number renders as a non-empty run of decimal digits with no leading zero (except for 0 itself) |
| `Decimal.DigitsValueOfNatToDecimal` | functions/src/index.ts:82-84 | the digits a non-negative number renders to have exactly that value |
| `Decimal.DecimalToIntOfIntToDecimal` | functions/src/index.ts:82-84 | every integer's rendering, with its minus sign, reads back as the same integer |
| `Decimal.IntToDecimalInjective` | functions/src/index.ts:82-84 | two integers render alike exactly when they are equal |
| `Sections.PriceLabel` | functions/src/index.ts:83 | the label `($` + digits + `.00/month)` reads back as exactly the tier's monthly price |
| `Sections.SponsorText` | functions/src/index.ts:81-84 | the section text opens with the sponsor login in bold and ends by closing the sponsorable's bold link (`>*`) |
| `Sections.SponsorTextAroundPrice` | functions/src/index.ts:81-84 | the section text is the sponsor mention, `: `, the bold tier name, then at once the price label, then the sponsorable mention |
| `Sections.SponsorTextDeterminesPrice` | functions/src/index.ts:81-84 | changing only the tier price changes the section text, and only a change of price does |
| `Sections.NewSponsorSection` | functions/src/index.ts:77-90 | the block is a `section` with `mrkdwn` text and an `image` accessory whose URL is the sponsor's avatar |
| `Sections.UnstrikeStrike` | functions/src/index.ts:96-99 | stripping the `~ ` … ` ~` markers from a struck text gives back the text |
| `Sections.StruckSponsorText` | functions/src/index.ts:96-99 | the cancelled template equals the new-sponsor text wrapped in `~ ` and ` ~` |
| `Sections.CancelledSponsorSection` | functions/src/index.ts:92-105 | the block is a `section` with `mrkdwn` text and the sponsor's avatar as an `image` accessory; its text is the new-sponsor section's text struck through |
| `Sections.CancelledUnstrikesToNew` | functions/src/index.ts:92-105 | un-striking the cancelled section text gives the new-sponsor text, and the two sections never coincide |
| `Dispatch.CreatedMessage` | functions/src/index.ts:110-124 | the `created` message has the default username and icon, a `mrkdwn` header section without accessory that opens with `:tada: `, then the new-sponsor section; its fallback reads back as a new sponsorship between the two logins |
| `Dispatch.CancelledMessage` | functions/src/index.ts:126-140 | the `cancelled` message has the default username and icon, a `mrkdwn` header section without accessory that opens with `:cry: `, then the cancelled section; its fallback reads back as a lost sponsorship between the two logins |
| `Dispatch.Sends` | functions/src/index.ts:107-143 | the two tests on the action tag send at most one message per event |
| `Dispatch.SendsAgreesWithNotification` | functions/src/index.ts:107-143 | the messages sent are exactly the one the variant calls for: one for `created` or `cancelled`, none otherwise |
| `Dispatch.OtherActionsAreSilent` | functions/src/index.ts:107-143 | `edited`, `tier_changed`, `pending_tier_change` and `pending_cancellation` send nothing |
| `Dispatch.SentMessageShape` | functions/src/index.ts:70-140 | every sent message has username `GitHub Sponsor` and the Mona icon URL, and exactly two blocks: the header section (no accessory), then the action's sponsor section. The fallback and header texts are the `created` and `cancelled` templates |
| `Dispatch.HeaderEmoji` | functions/src/index.ts:115-137 | the header starts with `:tada: ` exactly for `created` and with `:cry: ` exactly for `cancelled` |
| `Dispatch.ReadNewSponsorFallback` | functions/src/index.ts:113 | the `created` fallback text reads back as a new sponsorship between the two logins |
| `Dispatch.ReadLostSponsorFallback` | functions/src/index.ts:129 | the `cancelled` fallback text reads back as a lost sponsorship between the two logins |
| `Dispatch.ReadFallbackOfSent` | functions/src/index.ts:110-140 | the fallback of every sent message tells which change happened and between which two logins |
| `Router.Header` | functions/src/index.ts:149 | `request.headers[name]` is undefined exactly when the header is missing or undefined, and otherwise the stored value |
| `Router.LooselyNonNull` | functions/src/index.ts:149 | `v != null` holds exactly for a string or string-list value, never for null or undefined |
| `Router.Route` | functions/src/index.ts:148-152 | a request is delegated exactly when its `x-github-event` header is present and neither null nor undefined; otherwise the answer is 400 |
| `Router.Deliveries` | functions/src/index.ts:107-152 | a request leads to at most one message, and only when it was delegated and the handler got a `created` or `cancelled` event |
| `Router.MissingHeaderIsRefused` | functions/src/index.ts:149-151 | without the header, or with it null, the answer is 400 and nothing is sent |
| `Router.PresentHeaderIsDelegated` | functions/src/index.ts:149-150 | any string value of the header, even the empty string, is delegated |

## Left out

- Loading the Firebase configuration and the `as any` cast (lines 6-13). This is deployment configuration.
- Constructing the webhook middleware, checking signatures, and routing event names inside `middleware` (lines 14-16, 150). This is a foreign library. `Router.Deliveries` takes the event the middleware hands the handler as a parameter (`None` when it hands none).
- The Slack client and network delivery (line 18), and the `async`/`await` around `slack.send`. The handler returns the messages it would send. Delivery failures are not modelled.
- Number rendering covers integer values only. JavaScript prints numbers of 10^21 and more in exponent form, and prints fractional prices with a fraction. The model renders every `id` and price as a plain decimal integer.
- The payload fields the relay never reads: `changes.privacy_level`, `changes.tier`, `effective_date` and the sponsorable's avatar. They are kept as data but nothing uses them.
- The unchecked cast `event.payload as WebhookSponsorship` (line 108). A payload whose `action` is none of the six fails both tests and sends nothing. `Events.Event` is closed and cannot represent such a payload, so the model does not cover it.
- Slack-side interpretation of the markup (links, bold, strike-through), and escaping of `*`, `~`, `<` or `|` inside logins, URLs or tier names. The source does not escape them either.
- Dispatch.CreatedMessage: its read-back clause holds only for sponsor logins without a space. GitHub logins are letters, digits and hyphens; the source makes no such check.
- Dispatch.CancelledMessage: its read-back clause holds only for sponsor logins without a space, for the same reason.
- Dispatch.ReadFallbackOfSent: assumes the sponsor login contains no space. GitHub logins are letters, digits and hyphens; the source makes no such check.
- Dispatch.ReadNewSponsorFallback: assumes the sponsor login contains no space, for the same reason.
- Dispatch.ReadLostSponsorFallback: assumes the sponsor login contains no space, for the same reason.
