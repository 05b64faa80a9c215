# Payment-gated image generation: the project-record state machine

The application lets a signed-in user upload an image with a prompt, pay a
fixed 2.00 EUR through a Stripe checkout, and get back an image generated
by a Replicate model. Every upload becomes a row of the `projects` table.
Four API routes drive that row, and a middleware guards them:

- **checkout creation** stores the image in the input bucket. It inserts a
  `pending`/`pending` row at 200 cents owned by the caller, then asks
  Stripe for a checkout session. The session has one line item at the
  fixed price, and its metadata echoes the project and its owner;
- the **Stripe webhook** receives the signed `checkout.session.completed`
  event and marks paid the row whose id and owner match that metadata;
- **generation** checks, in order: signed in, a project id given, an owned
  row exists, it is paid, it is not completed. It then marks the row
  `processing`, turns the model's output into a URL, stores the image in
  the output bucket and marks the row `completed` with that URL;
- **delete** looks the row up for its owner. It takes each image's blob
  name as the last `/`-segment of its URL, removes the blobs, then
  deletes the row;
- the **middleware** redirects to `/login` or answers 401 for unsigned
  requests to the paths its matcher covers.

The model has these modules:

- `Projects` is the table as a `map<ProjectId, Project>` inside a `Store`
  class, which also holds the two buckets as sets of blob names. It
  contains the scoped queries (`Lookup`, `MarkPaid`, `MarkProcessing`,
  `MarkCompleted`, `RemoveOwned`), the row invariant `RowValid` and the
  forward-only relation `Advances`.
- One module per route holds its handler as a method that modifies the
  store: `CheckoutRoute.Post`, `WebhookRoute.Post`, `GenerateRoute.Post`
  and `DeleteRoute.Delete`.
- `Middleware` holds the access decision.
- `Paths` models `split('/').pop()` and public URLs. `Naming` models blob
  names and the line-item description.
- `Workflow` drives one project from checkout to deletion using only the
  handlers' contracts.

Everything external is a parameter of the handler. That covers the signed-in
user, Stripe's signature verification and session creation, Replicate's
output, the download and upload of images, the clock, the id the database
assigns, and the outcome of each database write the code checks. A call
that can throw is a `Call<T>`: `Returns(value)` or `Throws(message)`.

Points where the code's behaviour is easy to miss:

- The `pending → processing` write is unconditional, not a conditional
  update. Two concurrent requests can both pass the guard.
- Generation uses a single `replicate.run` call and does no polling.
- Deleting a project that was never generated fails with a 500. Its
  `output_image_url` is null, so `split` throws before any blob is removed.
- The checkout route never stores the Stripe session id. The webhook's
  update is the only write of `stripe_checkout_session_id`.

## Model

| member | source | states |
|---|---|---|
| `Paths.Split` | app/api/delete/route.ts:55-56 | `split('/')` yields at least one piece, no piece holds a `/`, and joining the pieces with `/` gives back the URL |
| `Paths.BlobName` | app/api/delete/route.ts:55-56 | the popped piece never holds a `/` |
| `Paths.BlobNameIsLastSegment` | app/api/delete/route.ts:55-56 | the blob name is exactly the text after the URL's last `/` (all of it when there is none) |
| `Paths.BlobNameOfPublicUrl` | app/api/delete/route.ts:55-56 | for a path without `/`, the blob name taken from its public URL is the path itself |
| `Naming.InputFilenameRoundTrip` | app/api/create-checkout-session/route.ts:55 | `input-<timestamp>-<file name>` can be read back into its timestamp and file name, whatever the file name holds |
| `Naming.InputFilenameInjective` | app/api/create-checkout-session/route.ts:55 | two uploads share a blob name only if they share both timestamp and file name |
| `Naming.DecimalRoundTrip` | app/api/create-checkout-session/route.ts:55 | the decimal text of `Date.now()` reads back as the same number |
| `Naming.OutputNameDiffersFromInputNames` | app/api/generate/route.ts:118 | a generated image's blob name never equals an uploaded image's |
| `Naming.FilenamesHaveNoSlash` | app/api/create-checkout-session/route.ts:55 | both kinds of blob name are free of `/` when the uploaded file's name is |
| `Naming.InputFilename` | app/api/create-checkout-session/route.ts:55 | an uploaded image's blob name starts with `input-` and ends with the uploaded file's name, with at least a one-digit timestamp and two dashes in between |
| `Naming.OutputFilename` | app/api/generate/route.ts:118 | a generated image's blob name starts with `output-`, ends with `.png` and holds no `/` |
| `Naming.Description` | app/api/create-checkout-session/route.ts:96 | the line-item description is the prefix of the prompt of length min(\|prompt\|, 100) |
| `Projects.NewProject` | app/api/create-checkout-session/route.ts:70-80 | the inserted row belongs to the caller, holds the uploaded image's URL and the prompt, is `pending`/`pending` without output, and is valid (price 200 cents) |
| `Projects.Lookup` | app/api/generate/route.ts:49-56 | the owner-scoped select returns the stored row exactly when the id is given, exists and belongs to the caller; otherwise nothing |
| `Projects.LookupSeesOnlyOwnRows` | app/api/generate/route.ts:49-58 | the owner-scoped lookup answers the same whatever other users' rows exist, so it never reveals them |
| `Projects.MarkPaid` | app/api/webhooks/stripe/route.ts:64-72 | the same keys remain; only the row with that id changes, and only when its owner is the event's user; it becomes paid with the session and intent recorded |
| `Projects.MarkPaidIdempotent` | app/api/webhooks/stripe/route.ts:64-72 | applying the payment update twice gives the table that applying it once gives |
| `Projects.MarkPaidPreserves` | app/api/webhooks/stripe/route.ts:66-70 | the update keeps every row valid, moves rows only forward and leaves status and output image untouched |
| `Projects.MarkProcessing` | app/api/generate/route.ts:78-81 | only the row with that id changes, and only its status becomes `processing` |
| `Projects.MarkProcessingPreserves` | app/api/generate/route.ts:78-81 | marking a paid, not completed row `processing` keeps the table valid and moves it forward |
| `Projects.MarkCompleted` | app/api/generate/route.ts:130-137 | only the row with that id and owner changes, to `completed` with the output URL |
| `Projects.MarkCompletedPreserves` | app/api/generate/route.ts:130-137 | completing a `processing` row keeps the table valid and moves it forward, and its payment fields stay as they were |
| `Projects.RemoveOwned` | app/api/delete/route.ts:66-72 | the scoped delete drops the key only when the caller owns that row; every remaining row is unchanged |
| `Projects.RemoveOwnedForgets` | app/api/delete/route.ts:43-52 | after the delete the owner's lookup finds nothing, and the table stays valid |
| `Projects.RemoveOwnedFound` | app/api/delete/route.ts:66-72 | when the caller owns the row, the delete removes exactly that row |
| `CheckoutRoute.SessionRequestFor` | app/api/create-checkout-session/route.ts:88-111 | one EUR line item whose charge totals 200 cents; its description is the truncated prompt; the metadata carries the new row's id and the caller, who is also the client reference |
| `CheckoutRoute.ChargeIndependentOfRequest` | app/api/create-checkout-session/route.ts:78-100 | the amount charged is the same for every request and equals the row's `payment_amount` in cents |
| `CheckoutRoute.InsertOutcome` | app/api/create-checkout-session/route.ts:70-83 | an insert succeeds only with an id not yet in the table: a fresh id is returned as the database gave it, an id already taken fails with a duplicate-key error, and a database error passes through unchanged |
| `CheckoutRoute.Post` | app/api/create-checkout-session/route.ts:11-120 | 401 or 400 with nothing stored; a failed upload stores nothing; after the upload the blob stays; on a successful insert exactly one new `pending`/`pending`/200-cent row of the caller is added, and it stays even if Stripe then fails (500); the request sent to Stripe is `SessionRequestFor` that row |
| `WebhookRoute.Handle` | app/api/webhooks/stripe/route.ts:15-87 | a missing signature or a failed verification gets 400; other event types get `{received: true}`; a completed event without `project_id` gets 400; all of these change nothing; otherwise the id- and owner-scoped payment update is applied, and a failed update gives 500 with no change |
| `WebhookRoute.RedeliveryIsIdempotent` | app/api/webhooks/stripe/route.ts:64-82 | delivering an event again gives the same reply and leaves the table as the first delivery left it |
| `WebhookRoute.DeliveryPreserves` | app/api/webhooks/stripe/route.ts:64-72 | any delivery keeps rows valid and moving forward, never touches status or output image, and changes only the row whose id and owner match the event's metadata |
| `WebhookRoute.PaymentRecorded` | app/api/webhooks/stripe/route.ts:64-82 | a matching row ends up paid with session and intent recorded; with no matching row the table is unchanged and the reply is still `{received: true}` |
| `WebhookRoute.Post` | app/api/webhooks/stripe/route.ts:15-87 | the handler's reply and new table are those of `Handle`, and every row stays valid |
| `GenerateRoute.OutputUrl` | app/api/generate/route.ts:99-111 | an object with `url` maps to its `url()`; a non-empty array maps to element 0 if that is truthy; a non-empty string maps to itself; anything else gives no URL; a URL given is always truthy |
| `GenerateRoute.Guard` | app/api/generate/route.ts:24-68 | proceeds exactly for a signed-in owner of an existing, paid, not completed row; otherwise 401, 400 (no id), 404, 402 or 400 (already generated), in that order |
| `GenerateRoute.GuardSeesOnlyOwnRows` | app/api/generate/route.ts:49-58 | the guards give a caller the same answer whatever other users' rows exist, so another user's project id gets the same 404 as a missing one |
| `GenerateRoute.ProcessingIsRetried` | app/api/generate/route.ts:66-68 | a paid row stuck in `processing` is not blocked |
| `GenerateRoute.Post` | app/api/generate/route.ts:7-151 | a refusal changes nothing; on success only that row changes, to `completed` with the stored image's public URL, payment fields untouched, and the reply carries URL and id; any failure after the `processing` write leaves the row `processing` with a 500; the output bucket gains the image exactly when the upload succeeded |
| `DeleteRoute.RemoveBlobs` | app/api/delete/route.ts:58-63 | each blob name is removed from its own bucket, and only when it is non-empty |
| `DeleteRoute.Delete` | app/api/delete/route.ts:6-79 | 401 or 404 with nothing removed; a project without output URL gets 500 with nothing removed; otherwise the non-empty blob names leave their buckets, and the row goes unless the database refuses (500); afterwards the owner's lookup finds nothing |
| `DeleteRoute.RemovesStoredBlobs` | app/api/delete/route.ts:55-56 | the names delete extracts are the blob names checkout and generation stored, provided the uploaded file's name holds no `/` |
| `Middleware.InScope` | middleware.ts:74-76 | the matcher covers every path under `/dashboard/` or `/api/`, and only `/dashboard` or `/api` as whole first segments (`/dashboardx` is outside) |
| `Middleware.Guard` | middleware.ts:57-76 | a signed-in request always passes; a redirect to `/login` happens exactly for unsigned `/dashboard` paths in the matcher; a 401 happens exactly for unsigned `/api/` paths in the matcher other than `/api/auth` |
| `Middleware.AuthRouteIsPublic` | middleware.ts:66 | `/api/auth` passes with or without a user |
| `Middleware.WebhookRefusedWithoutSession` | middleware.ts:65-69 | an unsigned request to `/api/webhooks/stripe` gets 401 |
| `Middleware.GuardExemptingWebhook` | middleware.ts:65-69 | corrected guard: the webhook path always passes, every other path is decided as before |
| `Middleware.ExemptionOnlyOpensWebhook` | middleware.ts:65-69 | with the exemption, unsigned webhook deliveries pass and every other protected API path still gets 401 |

## Findings

| source | as written | input that shows it | evidently intended | confidence | as-written member | corrected member |
|---|---|---|---|---|---|---|
| middleware.ts:65-69 | every `/api/` path except `/api/auth` needs a session cookie, including the Stripe webhook | Stripe's `POST /api/webhooks/stripe`, which carries no session cookie, gets 401 before the handler runs, so no payment is ever recorded | the webhook route is exempt; it authenticates by its signature | medium, not executed | `Middleware.WebhookRefusedWithoutSession` | `Middleware.GuardExemptingWebhook` |

## Left out

- The React pages and components are rendering and client state only. They are not part of this model.
- The Supabase client construction, the cookie get/set/remove callbacks of the middleware and the environment variables are I/O plumbing. The signed-in user is an `Option<UserId>` parameter, and an authentication error counts as no user, as in the code.
- Stripe's `constructEvent` signature check is foreign code. Its outcome is the `verified: Call<Event>` parameter.
- Replicate's `run`, the `fetch` of its result, storage uploads and Stripe's session creation are foreign calls. Each is a parameter.
- `getPublicUrl` is modelled as `base + "/" + path`. Any percent-encoding of the path is not modelled.
- Whether an upload succeeds is a parameter. It is not derived from the bucket's contents, so a name clash is not modelled.
- `Date.now()` is a `nat` parameter.
- Concurrency is left out: the handlers run one at a time. Two interleaved generation requests could both pass the guard, because the `processing` write is unconditional.
- The `payment_amount` of 2.00 is a float in the code. It is 200 integer cents here.
- Request parsing (`req.json()`, `req.formData()`) is not modelled. A malformed body gives 500 in the code. `projectId` and `prompt` are optional strings; other JSON types are not modelled, and neither is a form field of the wrong kind.
- An error on the owner-scoped select gives the same 404 as a missing row, so it is not separated out.
- The code never checks the error of the `processing` write. The model always applies that write.
- Removals from a bucket are awaited but their errors are ignored, as in the code. Each is modelled as removing the name.
- `.eq('user_id', undefined)` (an event without `user_id` in its metadata) is taken to match no row.
- A `null` session URL from Stripe is not modelled.
- Console logging is left out.
- `Naming.Description`: lengths count Unicode scalar values (Dafny characters), not the UTF-16 code units JavaScript's `substring` counts. A prompt with characters outside the Basic Multilingual Plane, such as emoji, is cut at a different place in the code, which may also split a surrogate pair.
- `DeleteRoute.RemovesStoredBlobs`: it holds for the model's `base + "/" + path` public URL. It does not cover file names that `getPublicUrl` would percent-encode, such as `IMG 0001.jpg`. For those, the name delete extracts is the encoded one, and the stored blob would not be removed.
- `Middleware.Guard`: the `config.matcher` patterns `/dashboard/:path*` and `/api/:path*` are approximated by path equality and prefix tests. Next.js's trailing-slash and data-route normalisation is not modelled.
