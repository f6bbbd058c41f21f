# jwt-creator, modelled in Dafny

jwt-creator is a single-page browser tool. It builds HS256 JSON Web Tokens for a
document-management server from a form, and it decodes pasted tokens to show
their claims and whether they are currently valid. All of its logic lives in
`js/app.js`. This project models the parts of that script that compute
something:

- the permission calculator, which sums the values of the ticked permission boxes;
- the secret generator;
- the `datetime-local` formatter;
- the submit handler:
  - the validation checks, in order;
  - the payload, built one property assignment at a time;
  - the signed token and its `Authorization: Bearer` value;
- the decoder:
  - the trim and split checks;
  - the base64url-to-base64 normalisation in front of `atob`;
  - the expiry/not-before status line.

Modules:

- `Wrappers`: `Option` and `Result`.
- `JsString`:
  - `String.prototype.trim` over the ECMAScript white-space set;
  - `split` and `join` on one character;
  - global one-character replacement.
- `Decimal`: `String(n)` for integers, its inverse, and `padStart`.
- `DateFormat`: `formatDateTimeLocal`, and the parser that inverts it.
- `PermissionCalculator`: the `BigInt` running total over the checkboxes.
- `SecretGenerator`: the 32-character alphanumeric secret.
- `Claims`: a JSON object as an insertion-ordered list of properties, with property read (`Lookup`) and property assignment (`Put`).
- `PayloadBuilder`: validation and payload assembly in the submit handler.
- `TokenGenerator`: the signing step and the `Bearer ` header value.
- `Base64Url`: `base64UrlDecode` up to its `atob` call.
- `TokenStatus`: the status classification of `exp` and `nbf`.
- `TokenDecoder`: the decode click handler.

Times are integers: `nbfMs`, `expMs` and `nowMs` are milliseconds since the epoch, and claims are whole seconds. Foreign calls are parameters:

- `crypto.getRandomValues` is the `random` bytes;
- `jose.SignJWT(...).sign` is `sign`;
- `atob` followed by `JSON.parse` is `readJson`.

## Model

| member | source | states |
|---|---|---|
| PermissionCalculator.Recalculate | js/app.js:101-107 | the loop's total is the sum of the values of exactly the checked boxes; the displayed text is the canonical decimal numeral of the total (`total.toString()`): non-empty, digits only, no leading zero, and it reads back as the total |
| PermissionCalculator.NoneCheckedIsZero | js/app.js:101-107 | with no box checked the total is 0 |
| PermissionCalculator.UncheckedBoxIgnored | js/app.js:103-105 | an unchecked box adds nothing: the total is unchanged when it is removed |
| PermissionCalculator.TickingAddsValue | js/app.js:103-105 | checking a previously unchecked box raises the total by exactly that box's value |
| PermissionCalculator.TotalAppend | js/app.js:102-106 | the total over two runs of boxes is the sum of their totals |
| Decimal.NatToString | js/app.js:107 | the decimal text of a non-negative integer is non-empty, all digits, has no leading zero and is one digit exactly below 10 |
| Decimal.NatToStringRoundTrip | js/app.js:107 | reading back the decimal text of `n` gives `n` |
| Decimal.IntToStringRoundTrip | js/app.js:63-68 | `String(year)` for any integer year, including a leading `-`, parses back to that year |
| Decimal.PadStart | js/app.js:64-67 | `padStart(width, fill)` keeps the string as a suffix and fills only on the left, up to `width` |
| DateFormat.TwoDigits | js/app.js:64-67 | a value below 100 padded to two digits is two decimal digits that read back as the value |
| DateFormat.TimeSuffixRoundTrip | js/app.js:64-68 | for an in-range date, the `-MM-DDTHH:mm` tail parses back to its month, day, hours and minutes |
| DateFormat.FormatDateTimeLocal | js/app.js:62-69 | the value is the year's numeral followed by `-MM-DDTHH:mm`: separators `-`, `-`, `T`, `:` at their places and two-digit fields holding the 1-based month, the day, the hours and the minutes |
| DateFormat.FormatRoundTrip | js/app.js:62-69 | for an in-range date, `YYYY-MM-DDTHH:mm` is the year text plus 12 characters, and parsing it gives back the date it was formatted from |
| SecretGenerator.CharsetIsAlphanumeric | js/app.js:136-137 | the alphabet has 62 characters, all ASCII letters or digits |
| SecretGenerator.GenerateSecret | js/app.js:135-143 | the secret has 32 characters, which is enough for the 32-character check; character `i` is `charset[random[i] % 62]`; every character is alphanumeric |
| JsString.Trim | js/app.js:336-337 | `trim()` is the middle slice of the input between a leading and a trailing run of white space; it is empty exactly when the input is all white space, and otherwise neither starts nor ends with white space |
| JsString.TrimIdempotent | js/app.js:336-337 | trimming twice is trimming once |
| JsString.Split | js/app.js:521 | `split(".")` gives one more part than there are dots, and no part contains a dot |
| JsString.JoinSplit | js/app.js:521 | joining the parts of a split with the separator gives back the original string |
| JsString.SplitJoin | js/app.js:521 | splitting the join of non-empty, separator-free parts gives those parts back |
| JsString.ReplaceAll | js/app.js:586 | `replace(/c/g, d)` keeps the length, replaces every `c` by `d` and leaves the other characters in place |
| Claims.IndexOf | js/app.js:361-367 | the position found is the first entry with that name, or the length when there is none |
| Claims.HasKeyIffNamed | js/app.js:361-367 | a property is present exactly when its name is among the object's keys |
| Claims.Put | js/app.js:381-383 | assigning a property keeps the key order and appends a new key at the end |
| Claims.PutLookup | js/app.js:392-393 | after `p[k] = v`, reading `k` gives `v` and every other property reads as before |
| Claims.PutKeepsKeysUnique | js/app.js:402-411 | assignment never duplicates a key |
| Claims.LookupAppend | js/app.js:361-412 | reading from a concatenation finds the first part's entry before the second's |
| PayloadBuilder.Seconds | js/app.js:364-365 | `Math.floor(ms / 1000)` is the whole number of seconds `s` with `1000*s <= ms < 1000*s + 1000` |
| PayloadBuilder.IdentityClaims | js/app.js:370-407 | each identity alert is raised exactly when its variant is selected and its field is blank; otherwise the identity part is at most one claim under an identity name, and none exactly when the selector names no known variant |
| PayloadBuilder.ExpectedPayload | js/app.js:333-465 | the reference result of the handler: the first failing check, or the registered claims, the identity claim, `iat` and the grants in that order; an accepted payload never repeats a key |
| PayloadBuilder.BuildPayload | js/app.js:333-465 | the handler's step-by-step assignments give exactly `ExpectedPayload`, and an accepted payload never repeats a key |
| PayloadBuilder.AssignIdentity | js/app.js:370-407 | the identity switch either stops with the alert for the selected variant's empty field, or appends exactly the selected identity claim; an unknown selector appends nothing |
| PayloadBuilder.HeadNamed | js/app.js:361-412 | the payload before the grants repeats no key and uses only the registered, identity and `iat` names |
| PayloadBuilder.GrantsKeepKeysUnique | js/app.js:431-465 | adding the grants to such a payload repeats no key |
| PayloadBuilder.AssignGrant | js/app.js:432-465 | one of the six `if (id && perm)` blocks (432-449 and 458-465; the workflow block has its own member) appends that slot's `id:perm` claim, or nothing, to the payload built so far |
| PayloadBuilder.AssignWorkflowGrant | js/app.js:452-455 | the workflow-instance block appends `id:token:perm`, with token `0` when empty, or nothing |
| PayloadBuilder.AssignGrants | js/app.js:431-465 | the seven conditional grant assignments append exactly the grant claims to the payload |
| PayloadBuilder.ValidationOrder | js/app.js:349-407 | a secret shorter than 32 is reported whatever the dates; a bad date range is reported only when the secret is long enough; a missing identity field only when both pass, and only for the selected variant |
| PayloadBuilder.AcceptedPayloadClaims | js/app.js:361-412 | an accepted payload holds `iss` and `aud` trimmed, `nbf` and `exp` as floored seconds with `exp >= nbf`, and the scope; `iat` equal to the submit time in seconds is present exactly when requested |
| PayloadBuilder.AcceptedLookup | js/app.js:361-465 | in an accepted payload each name is found in its own part, and nothing assigned later hides it: registered names in the literal, identity names in the identity claim, `iat` in its own assignment and grant names in the grants |
| PayloadBuilder.IdentityClaimFollowsSelector | js/app.js:370-407 | each identity claim is present exactly when the selector names it; an unknown selector adds none; the Windows account is `domain\username`, or `\username` for an empty domain |
| PayloadBuilder.GrantClaimsPresent | js/app.js:431-465 | each grant claim is present exactly when its id and permission are both non-empty, with value `id:perm`; `the:wfinst` is `id:token:perm`, with token `0` when empty |
| PayloadBuilder.LookupSlotClaims | js/app.js:431-465 | in a run of grant slots with distinct names, each slot's name reads back as that slot's value, or is absent |
| TokenGenerator.GenerateToken | js/app.js:467-483 | a rejected form yields its validation error; otherwise the payload is signed under `{alg: HS256, typ: JWT}`; a signer error is passed on; the authorisation value is `Bearer ` followed by exactly the token |
| Base64Url.Padding | js/app.js:587-590 | the number of `=` added is below 4, brings the length to a multiple of 4, and is 0 exactly when the length already is one |
| Base64Url.Normalized | js/app.js:584-590 | the normalised string has a length that is a multiple of 4, at least the input length and below input length + 4; each input character is kept in place, except that `-` becomes `+` and `_` becomes `/` (section 5 of RFC 4648); it has no `-` or `_`; only `=` follows the input |
| Base64Url.NormalizeBase64Url | js/app.js:584-590 | the two replacements and the conditional padding compute exactly the reference normalisation |
| Base64Url.NormalizeRoundTrip | js/app.js:584-591 | normalising the base64url form of any correctly padded base64 string gives that string back |
| TokenStatus.Classify | js/app.js:540-561 | no truthy `exp` gives no-expiry; `exp < now` gives expired whatever `nbf` is; otherwise a truthy `nbf > now` gives not-yet-valid; otherwise valid, where `0 <= hours < 24` and the days and hours are the whole days and hours left |
| TokenStatus.RemainingIsUnique | js/app.js:547-548 | the days and hours displayed are the only split of the time left into whole days and whole hours below a day |
| TokenStatus.ExpiringNowIsValid | js/app.js:540-558 | a token at exactly its expiry second is valid with 0 days and 0 hours left |
| TokenDecoder.SplitToken | js/app.js:508-525 | an input that is all white space is rejected as empty; a non-blank input is rejected for its shape exactly when its trimmed form does not have two dots, and accepted otherwise; the three parts contain no dot and join back to the trimmed input |
| TokenDecoder.DecodeResult | js/app.js:507-569 | a decode succeeds exactly when the token passes the structural checks, its normalised header segment reads, and its normalised payload segment reads as something other than `null` |
| TokenDecoder.Decode | js/app.js:507-569 | a structural rejection is passed on; a well-formed token fails with the one catch-all error exactly when the header does not read, or the payload does not read or is `null` (reading `payload.exp` throws); otherwise the header and payload are what was read and the status classifies the payload's `exp` and `nbf` at the current whole second |
| TokenDecoder.MalformedNeverRead | js/app.js:515-525 | a malformed input is rejected before any segment is decoded: the result does not depend on the JSON reader |
| TokenDecoder.TokenSplits | js/app.js:508-525 | three dot-free segments, any of them empty, joined with dots into a token with no white space at either end, split back into exactly those segments |
| TokenDecoder.SameFirstTwoParts | js/app.js:528-529 | two well-formed tokens that agree on their header and payload segments decode to the same result |
| TokenDecoder.SignatureIgnored | js/app.js:528-529 | the third segment, the signature, plays no part in the result, including an empty signature |
| TokenDecoder.DecodedStatus | js/app.js:528-561 | a decoded token's payload is a non-`null` value read from the second segment, and its status is the classification of that payload's `exp` and `nbf` at the current whole second |

## Left out

- The DOM work is not modelled: event wiring, tabs, show/hide toggles, the form reset and scrolling are page plumbing. This covers js/app.js:1-43, 84-92, 112-126, 190-330 and 484-489.
- Clipboard writes, `setTimeout` and `alert` are not modelled; they are asynchronous browser I/O. Each `alert` that ends the submit handler is a `BuildError` value instead.
- Signing is not modelled. The HMAC-SHA256 JWS computed by `jose.SignJWT` and the `TextEncoder` key bytes come from a foreign library and are the `sign` parameter. The model hands it the protected header, the payload and the secret text.
- `atob`, `JSON.parse` and `JSON.stringify` are foreign calls. `atob` followed by `JSON.parse` is the `readJson` parameter, and any exception it would throw is `None`. What it returns is either JSON `null` or a value with its numeric `exp` and `nbf` members; reading a member of a `null` payload throws inside the handler's `try`, and the model reports that as the catch-all error. The pretty-printed previews are not modelled.
- Only integer `exp` and `nbf` claims are modelled. A non-numeric claim (a string compared with `<`, or a float) is outside the model.
- `Date` is not modelled: parsing of the `datetime-local` fields, `getTime`, the local time zone, `toLocaleString` and the Invalid Date/NaN case. An empty date field makes the `expDate <= nbfDate` comparison false. `nbfMs`, `expMs` and `nowMs` are integers instead, and a date is its local calendar fields.
- `crypto.getRandomValues` is not modelled. Its 32 bytes are the `random` parameter.
- `updateTimestampDisplay` is not modelled. It needs `Date` parsing.
- PayloadBuilder.BuildPayload: `secret.length` counts UTF-16 code units, and the model counts characters. The two differ only for secrets with characters outside the Basic Multilingual Plane.
- TokenDecoder.Decode: every failure after the structural checks is one `Unreadable` error. The `catch` at js/app.js:567-569 shows "Failed to decode JWT: " followed by the thrown error's message, which differs for an `atob` failure, a `JSON.parse` failure and the TypeError from reading `exp` of a `null` payload. Those messages come from the browser and its foreign calls, so the model keeps only the fact that a step after the split threw.
- PayloadBuilder.BuildPayload: the three identity alerts ("Username is required", "Name is required", "Email address is required") are three errors. They are raised at js/app.js:375, 389 and 399.
