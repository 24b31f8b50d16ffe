# Phone lookup: a verified model

This project models the logic of a small phone-number lookup web app. The app
has three parts:

- **The lookup route** (`POST /api/lookup`). It reads `phoneNumber` from the
  JSON body and answers 400 when that field is falsy. Otherwise it strips every
  non-digit and puts `+` in front, or `+1` when the digits do not already start
  with 1. It then asks the phone-lookup provider for the caller name, then for
  the carrier, and answers 200 with the merged result. Any failure gives 500
  with a fixed message.
- **The server action** `lookupPhone(apiKey, phoneNumber)`. It splits the API
  key on `:` into account SID and auth token. It makes one combined provider
  lookup and fills a missing carrier name, carrier type or caller name with a
  fixed placeholder.
- **The client form**. Its state cells are the typed number, the displayed
  result, the loading flag and the `"phoneResults"` local-storage slot. It
  reacts to mount, keystroke and submit. It also has two display fallbacks,
  for the caller-name line and the carrier line.

Modules, one per source file:

- `Js`: absent values, throwing calls, JSON bodies, truthiness and `||`.
- `Provider`: the provider's reply records.
- `LookupRoute`: `app/api/lookup/route.ts`.
- `LookupAction`: `app/actions.ts`.
- `PhoneLookup`: `components/phone-lookup.tsx`.

The provider, the phone-number library (`libphonenumber-js`) and the client's
`fetch` are opaque. Each is a function-typed parameter. The route returns the
provider requests it issued along with its answer. This lets the model state
their order and that both requests use the same number.

The client component is a class, `PhoneLookupForm`, whose methods update its
fields in place. Each method is proved equal to a pure step function
(`Mounted`, `PhoneChanged`, `Submitted`). The control-flow properties are
proved about those functions. The main one: after mount, every run of
keystrokes and submits leaves the form not loading, with the display equal to
the storage slot (`RunKeepsSettled`).

The model follows the code as written. Points worth knowing:

- The route answers 400 for every falsy `phoneNumber` (missing, `null`, `""`,
  `0`, `false`), not only for a missing one.
- The route copies the four carrier fields verbatim, nulls included, and
  defaults none of them. Only the caller name is turned into `null` when empty.
  Of the carrier fields, the server action defaults only the name and the type.
- The route re-normalises numbers that the client already sends in E.164 form.
  A NANP number comes through unchanged (`NanpE164Unchanged`). A number with
  another country code gets a 1 in front (`OtherCountryCodeGetsOnePrefixed`:
  `+447…` becomes `+1447…`).
- The route does not enforce E.164's limit of fifteen digits
  (`NormalizeLength`).

## Model

| member | source | states |
|---|---|---|
| `Js.PhoneNumberProperty` | app/api/lookup/route.ts:15 | destructuring `phoneNumber` yields a value exactly when the body is an object holding that key |
| `Js.OrNull` | app/api/lookup/route.ts:39 | the default-to-null operator keeps its operand exactly when it is a non-empty string, and gives null otherwise |
| `Js.OrDefault` | app/actions.ts:17-20 | the default operator gives its operand when it is a non-empty string, else the fallback; never empty when the fallback is not |
| `Provider.CallerNameText` | app/api/lookup/route.ts:39 | `callerName?.caller_name` is absent when the record is, and otherwise the record's `caller_name` |
| `LookupRoute.Digits` | app/api/lookup/route.ts:24 | the stripped text holds only ASCII digits, is no longer than the input, and equals an all-digit input |
| `LookupRoute.DigitsKeepsEveryDigit` | app/api/lookup/route.ts:24 | every digit of the input occurs in the stripped text as often as in the input |
| `LookupRoute.DigitsAppend` | app/api/lookup/route.ts:24 | stripping distributes over concatenation, so the digits keep their order |
| `LookupRoute.Normalize` | app/api/lookup/route.ts:24-28 | the result starts with `+1` and is `+` followed by digits only; those digits are the input's digits, with a leading 1 added unless they already start with 1 (empty input gives `+1`) |
| `LookupRoute.NormalizeLength` | app/api/lookup/route.ts:24-28 | the length is the digit count plus 1 (leading 1) or plus 2 (otherwise), with no upper bound |
| `LookupRoute.NormalizeIdempotent` | app/api/lookup/route.ts:24-28 | normalising a normalised number returns it unchanged |
| `LookupRoute.NanpE164Unchanged` | app/api/lookup/route.ts:24-28 | `+1` followed by digits is returned unchanged |
| `LookupRoute.OtherCountryCodeGetsOnePrefixed` | app/api/lookup/route.ts:26-28 | `+` and digits not starting with 1 become `+1` and those digits: another country code is not recognised |
| `LookupRoute.TenDigitNationalNumber` | app/api/lookup/route.ts:24-28 | ten digits not starting with 1, in any punctuation, give `+1` and exactly those ten digits (12 characters) |
| `LookupRoute.SubmittedText` | app/api/lookup/route.ts:15-24 | the text normalised is the body's `phoneNumber` when that is a non-empty string, and nothing otherwise |
| `LookupRoute.Merge` | app/api/lookup/route.ts:37-46 | the result's number is the caller reply's number; the caller name is present exactly when the provider's `caller_name` is a non-empty string, and is then that string; the four carrier fields are the provider's, unchanged |
| `LookupRoute.Post` | app/api/lookup/route.ts:13-54 | the status is 200, 400 or 500. It is 400 exactly when the body parsed, is not `null`, and its `phoneNumber` is falsy (`Js.Falsy`: missing, `null`, `false`, zero or `""`); the body is then the fixed "required" error and no provider request is made. Every 500 carries exactly the fixed "failed" error. Provider requests happen only for a non-empty string field: first caller-name, then carrier, both with the normalised number; the carrier request is made exactly when the caller-name lookup resolved. For such a field the answer is 200 exactly when both lookups resolved and a carrier record came back, and it then carries their merge. |
| `LookupRoute.FailureHidesProviderError` | app/api/lookup/route.ts:47-52 | the outcome does not depend on the messages of provider errors |
| `LookupAction.Split` | app/actions.ts:6 | `split(':')` gives at least one piece, no piece contains `:`, and joining the pieces with `:` gives back the key |
| `LookupAction.SplitHasSeveralPieces` | app/actions.ts:6 | the key contains `:` exactly when it splits into two or more pieces |
| `LookupAction.ParseApiKey` | app/actions.ts:6 | `accountSid` is the `:`-free text before the first `:`. `authToken` is absent exactly when the key has no `:`; otherwise it is the `:`-free text between the first and second `:`. The rest is dropped. |
| `LookupAction.Shape` | app/actions.ts:14-21 | the number is passed on unchanged; carrier name and type are the provider's when non-empty, else `Unknown`; the caller name is the provider's when non-empty, else `Not available`; no field is ever empty |
| `LookupAction.LookupPhone` | app/actions.ts:5-26 | a client-construction error escapes with its own message; any lookup failure becomes exactly `Failed to lookup phone number`; it resolves exactly when both succeed, and then to the shaped reply |
| `PhoneLookup.Initial` | components/phone-lookup.tsx:32-34 | the form starts with empty input, no result shown and not loading |
| `PhoneLookup.Mounted` | components/phone-lookup.tsx:37-42 | a stored result is shown; with an empty slot the display is unchanged; nothing else changes |
| `PhoneLookup.PhoneChanged` | components/phone-lookup.tsx:44-47 | the input becomes the as-you-type formatting of the typed text; nothing else changes |
| `PhoneLookup.Submitted` | components/phone-lookup.tsx:49-96 | loading is false at the end on every path. A request is sent exactly when the library parses a valid number; it carries the E.164 form while the input shows the national form. With no request the state is unchanged except that loading is cleared. Display and slot are both set to the reply exactly on an ok, JSON response; otherwise both are unchanged. The invalid-number notice appears exactly when parsing returns without a valid number. |
| `PhoneLookup.MountSettles` | components/phone-lookup.tsx:32-42 | after mount the form is not loading and shows exactly what the slot holds |
| `PhoneLookup.StepKeepsSettled` | components/phone-lookup.tsx:44-96 | a keystroke or a submit keeps "not loading, display equals slot" |
| `PhoneLookup.RunKeepsSettled` | components/phone-lookup.tsx:37-96 | after mount, any sequence of keystrokes and submits keeps the form not loading with display equal to slot |
| `PhoneLookup.SlotComesFromStorageOrServer` | components/phone-lookup.tsx:79-81 | the slot holds either what it held at mount or a result some submit received in an ok response |
| `PhoneLookup.CallerNameLine` | components/phone-lookup.tsx:146 | the line is the caller name when non-empty, else `Not available`; never empty |
| `PhoneLookup.CarrierLine` | components/phone-lookup.tsx:151-153 | the line is `name (type)` when both are non-empty, else `Unknown carrier (likely VoIP number)`; never empty |
| `PhoneLookup.CallerNameAgreesWithAction` | components/phone-lookup.tsx:146 | for one caller-name record, the form's line over the route's result equals the server action's `callerName` |
| `PhoneLookup.PhoneLookupForm.constructor` | components/phone-lookup.tsx:32-34 | the new form's state is the initial state with the slot as stored |
| `PhoneLookup.PhoneLookupForm.Mount` | components/phone-lookup.tsx:37-42 | the fields are updated exactly as `Mounted` says |
| `PhoneLookup.PhoneLookupForm.HandlePhoneChange` | components/phone-lookup.tsx:44-47 | the fields are updated exactly as `PhoneChanged` says |
| `PhoneLookup.PhoneLookupForm.HandleSubmit` | components/phone-lookup.tsx:49-96 | the new fields, the request sent and the notice are exactly those of `Submitted` |

## Left out

- The provider and its client library are not modelled. Each lookup is a function parameter returning a reply record or a thrown error. The route's module-level client (app/api/lookup/route.ts:8-11) and the action's client construction are represented only by those parameters and by whether construction throws.
- The start-up credential check (app/api/lookup/route.ts:4-6) reads the environment; it is not modelled. The route is modelled as if the module loaded.
- `libphonenumber-js` (as-you-type formatting, parsing, validity, national and E.164 formatting) is a function parameter. Its own properties are not stated: idempotence of as-you-type formatting, and the national/E.164 round trip.
- HTTP and JSON plumbing is not modelled. The request body arrives already parsed (or marked unparsable), and JSON numbers are reals. The client's response body is typed as the route's result. `JSON.stringify`/`JSON.parse` of the storage slot is assumed to round-trip, so the slot holds a result directly.
- PhoneLookup.PhoneLookupForm.HandleSubmit: does not model `localStorage.setItem` throwing (a full storage quota). In that case the source shows the result but leaves the slot unchanged and goes to the failure notice.
- Logging (`console.error`) is not modelled. Toasts are reduced to which of the three notices is shown.
- The rendering of "Details for" with `formatNational()` (components/phone-lookup.tsx:133, 140) is library formatting at render time; it is not modelled.
- Async interleaving is not modelled. Each submit is one atomic step; `isLoading` only disables the button, so a double submit could interleave in the source.
- React rendering, animation, UI components and `app/page.tsx` (layout only) are not modelled.
