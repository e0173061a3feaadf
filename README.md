# Herta Puppet Club: the callback core

The service is one Express script. A visitor signs in with X through the
OAuth 1.0a redirect-based flow (section 2 of RFC 5849). The callback gives
that account the next "puppet number" and renames it "Herta Puppet #NNNN".
This project models the parts of `api/index.js` that can be stated exactly:

- **Handshake bookkeeping** (`app.dfy`, module `HertaApp`).
  - `/login` stores the request token and secret that the provider issues in
    the client's session (class `Session`).
  - `/callback` refuses with 400 unless `oauth_token` and `oauth_verifier` are
    both truthy and `oauth_token` is strictly equal to the stored token.
  - Only a callback that passes this check talks to the provider. It logs in
    with the stored token and secret and the query's verifier.
  - The provider, the image host and the session middleware are not modelled
    as code. The callback's provider and image-host answers are the `Replies`
    input, and its requests are a returned trace of `ProviderCall`s, in the
    order it makes them. `generateAuthLink`'s result is `HandleLogin`'s
    `link` argument. The session is a `Session` object.
- **Puppet numbering** (`numbering.dfy`, module `Numbering`, and the
  `puppetDB` field of class `HertaApp.App`).
  - An id seen for the first time gets the table size plus one and is stored.
  - A known id gets its stored number back.
  - The table invariant is that the stored numbers are exactly 1..size, each
    used once.
- **Name formatting** (`naming.dfy`, module `Naming`).
  - `String(n)` is modelled as decimal digits.
  - `padStart(4, '0')` pads to a minimum width of four and never truncates.
  - The display name is the prefix `"Herta Puppet #"` followed by the padded
    number.

`wrappers.dfy` holds the `Option` type, which stands for a JavaScript value
that may be `undefined`.

JavaScript truthiness is written out. A query parameter is falsy when it is
absent or empty. A looked-up table entry is falsy when it is `undefined` or
`0`. `Numbering.IsUnseen` proves that, under the table invariant, the test
`!puppetDB[id]` means "id is not a key".

Facts about the code that shape the model:

- The request token and secret live in the server-side session. The client
  carries only the session cookie.
- A callback without a verifier gets 400.
- One `try` covers the image fetch, the name update and the avatar update.
  Any failure among them gives the same 500, and the trace shows how far the
  calls got.
- A rejection from `generateAuthLink`, `login` or `v2.me` is not caught. The
  handler itself then sends nothing (`NoResponse`).

## Model

| member | source | states |
|---|---|---|
| `HertaApp.CallbackAccepted` | api/index.js:44 | The guard passes iff the token and the verifier are both present and non-empty and the session holds exactly that token |
| `HertaApp.NoLoginNoCallback` | api/index.js:42-45 | A session that never ran `/login` accepts no callback at all |
| `HertaApp.MismatchRejected` | api/index.js:44-45 | A callback whose token differs from the stored token is refused, whatever the verifier |
| `HertaApp.MutationCalls` | api/index.js:69-74 | Inside the `try`, the image is fetched first, then the name is updated, then the avatar; the calls stop at the first failure |
| `HertaApp.Session.constructor` | api/index.js:23 | A fresh session holds neither a token nor a secret |
| `HertaApp.App.constructor` | api/index.js:21 | The process starts with an empty, well-numbered puppet table |
| `HertaApp.App.HandleLogin` | api/index.js:33-38 | After `/login` the session holds exactly the issued token and secret and the response redirects to the issued URL; a callback checked against the session as `/login` left it passes the guard when it carries that token (when non-empty) and a non-empty verifier; a later `/login` in the same session overwrites both fields; if the provider rejects, nothing is stored and the handler itself sends nothing |
| `HertaApp.App.AssignPuppet` | api/index.js:58-64 | A new id gets the old size plus one and is added; a known id gets its stored number and the table is unchanged; the invariant holds and the numbers in use are exactly 1..size |
| `HertaApp.App.HandleCallback` | api/index.js:40-46 | A callback that fails the guard gets 400 with the fixed message, makes no provider call and leaves the table unchanged; one that passes continues as `CompleteLogin` with the session's stored token and secret and the query's verifier |
| `HertaApp.App.CompleteLogin` | api/index.js:48-80 | The first call is the login with the stored token and secret and the verifier; a login or `me` failure leaves the table alone and the handler itself sends nothing; otherwise the table becomes the one assignment gives, the user is numbered before the profile is touched, the name sent is the display name of that number, and the response is the confirmation or a 500 |
| `HertaApp.UpdateProfile` | api/index.js:69-80 | The `try` block makes exactly the calls `MutationCalls` lists; it confirms the new name iff the fetch and both updates succeed, and otherwise answers the single 500 of the `catch` |
| `Numbering.IsUnseen` | api/index.js:59 | Under the invariant, the falsy test `!puppetDB[id]` holds exactly when the id is not a key |
| `Numbering.Assign` | api/index.js:58-64 | Whatever the table holds, the id ends up stored under the returned number; a new id gets the old size plus one; an id stored with a non-zero number gets it back and the table is unchanged |
| `Numbering.AssignUnseen` | api/index.js:59-61 | A new id gets the table size before insertion plus one, and the table grows by exactly that one entry |
| `Numbering.AssignSeen` | api/index.js:62-64 | A known id gets its stored number back and the table is unchanged |
| `Numbering.AssignKeepsOthers` | api/index.js:61 | Assignment adds no key but the id and never changes or removes another id's entry |
| `Numbering.AssignWellNumbered` | api/index.js:59-61 | Every assignment preserves the invariant: numbers in 1..size, pairwise distinct |
| `Numbering.AssignIdempotent` | api/index.js:58-64 | Assigning the same id twice gives the same number and table as assigning it once |
| `Numbering.WellNumberedValues` | api/index.js:59-61 | Under the invariant the set of numbers in use is exactly {1..size} |
| `Numbering.AssignAllInvariant` | api/index.js:58-64 | Over any run of callbacks the invariant holds and every callback received a number |
| `Numbering.AssignAllKeys` | api/index.js:58-64 | Over any run of callbacks the keys are the starting keys plus every id that asked, and entries present at the start keep their numbers |
| `Numbering.AssignAllStable` | api/index.js:58-64 | In any run of callbacks, the number each callback received is the one the final table still holds for its id, so numbers are never reassigned |
| `Numbering.FirstSeenOrder` | api/index.js:58-61 | From an empty table, N distinct ids arriving in turn receive 1, 2, ..., N in arrival order |
| `Naming.Decimal` | api/index.js:66 | `String(n)` is a non-empty string of decimal digits with no leading zero except for 0 |
| `Naming.DecimalValue` | api/index.js:66 | The digits of `String(n)` read back as n |
| `Naming.DecimalLength` | api/index.js:66 | `String(n)` has at most k digits exactly when n < 10^k |
| `Naming.PadStart` | api/index.js:66 | `padStart` returns a string of length max(target, original) that ends with the original (never truncated) and is filled with the pad character in front |
| `Naming.Padded` | api/index.js:66 | The padded number is all digits, has length max(4, digit count), ends with the unpadded digits (nothing is truncated) and reads back as the same number |
| `Naming.PaddedWidth` | api/index.js:66 | The padded number has exactly 4 characters iff n < 10000; from 10000 on it is the unpadded decimal |
| `Naming.PaddedExamples` | api/index.js:66-67 | 7 pads to "0007", 12345 stays "12345", and number 1 is named "Herta Puppet #0001" |
| `Naming.DisplayName` | api/index.js:67 | The display name is the prefix "Herta Puppet #" followed by a run of digits, as long as the padded number, that reads back as the puppet number |
| `Naming.DisplayNameInjective` | api/index.js:66-67 | Distinct puppet numbers give distinct display names |

## Left out

- The Express setup, the routes' HTML bodies, static files, `/` and `app.listen` (api/index.js:1-31, 83) are web plumbing. The responses are kept only as a redirect, a status with its message, or the confirmation's display name.
- The session middleware is modelled as a per-client record with two optional fields. Cookies, signing and storage are not modelled.
- The `TwitterApi` calls, the image `fetch` and the base64 encoding are foreign network clients. The callback's provider and image-host answers are the `Replies` input. `generateAuthLink`'s result is `HandleLogin`'s `link` argument. The image bytes are not modelled.
- Error logging (api/index.js:78) is not modelled.
- Environment configuration (`process.env`, `CALLBACK_URL`, `PORT`) is not modelled.
- Query parameters given more than once, which Express turns into arrays, are not modelled. Each parameter is a string or absent.
- Keys inherited from `Object.prototype` (such as `constructor`) are not modelled. For them `puppetDB[id]` is truthy even though the key is not stored. Provider user ids are numeric strings, so they never collide with such keys.
- `Naming.Decimal`: models `String(n)` for every natural number as plain decimal digits. JavaScript switches to exponent notation from 10^21 on and loses precision above 2^53; puppet numbers never get that large.
- `Naming.PadStart`: models a one-character fill string only, which is the only form the source uses.
- The handlers are modelled as running under Express 4 routing in a process that survives an unhandled promise rejection. `NoResponse` means only that the handler itself sends nothing. Under Express 5 the default error handler would answer 500. Under Node 15 or later with default settings the process would exit and the in-memory table would be lost. The source does not fix either version.
- Concurrency is not modelled. The size read and the insert at api/index.js:59-61 contain no `await`, so on Node's event loop they run as one step. Assignment is therefore a single sequential method.
- Persistence is not modelled. The table lives in process memory and is empty again after a restart, as the `App` constructor shows.
