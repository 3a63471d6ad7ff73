# Float: a Dafny model of the call bridge and the dashboard logic

Float is an "AI CFO" web app for small businesses. This project models the
parts of it that compute something, and proves properties of them:

- **The Twilio ↔ voice-agent bridge** (`twilio-media-stream`).
  - The μ-law codec of ITU-T G.711 (Table 2): the 16-bit variant with bias
    0x84 and clip 32635, the 2× upsampler to 16 kHz PCM and the 2× decimator
    back.
  - The priority-ordered prober that finds the audio field of an agent
    message.
  - The per-call session as a class. Each message handler is one atomic step.
  - The dispatcher that answers the agent's `client_tool_call` requests for
    card payments and payment links.
- **The call-status webhook** (`twilio-status-callback`): a Twilio call
  state becomes one update of the `calls` row.
- **The payment-link function** (`send-payment-link`) covers several steps:
  - provider selection;
  - resolving the fields from the body and the invoice row, then validating
    them;
  - the checkout, storage and e-mail steps;
  - the mapping from errors to HTTP responses.
- **Client-side logic of the React pages:**
  - the two readers of server-sent event streams (chat page and query bar);
  - the chat page's intent detection, demo replies, message upsert, job
    patching and collection-call runs;
  - the invoice table's status sort, totals and chase decision;
  - the dashboard's demo fallback and realtime reducer;
  - the Fix-It modal's timer-driven phase machine;
  - the benchmark tally.

Imperative code is modelled imperatively:
- the decode-table loop and the encoder's mask loop;
- the resampling loops and the path walk;
- the bridge session, whose state lives in fields;
- the stream readers' buffer loops;
- the chat page's call loop and its streamed-reply accumulation;
- the Fix-It modal's state;
- the benchmark's accumulator.

Most methods are proved against a specification function, and the
properties are lemmas about those functions. The bridge session's handlers
and the Fix-It modal's steps instead state their whole new state in their
own `ensures`, and the invariants they keep are proved there.

I/O is always an input:
- **Network results:** the signed-URL fetch, a tool's HTTP reply, the
  database rows and errors, the checkout session, the mail provider's reply,
  and the stream chunks.
- **Platform values:** the clock, the environment variables and
  `JSON.parse`, which is a parser oracle.

Every effect is either a log of frames a method appends to, or the returned
record of the writes made.

Files:
- `wrappers.dfy`, `text.dfy` and `json.dfy`: Option and Result; ASCII case
  mapping, trimming, substrings and decimal print/parse; JSON values with
  JavaScript truthiness and property access.
- `mulaw.dfy`, `audio_extract.dfy`, `tool_dispatch.dfy` and `bridge.dfy`:
  the media-stream function.
- `status_callback.dfy` and `payment_link.dfy`: the other two functions.
- `event_stream.dfy` and `query_bar.dfy`: the stream readers.
- `chat.dfy`, `invoice_table.dfy`, `dashboard.dfy`, `fixit.dfy` and
  `benchmark.dfy`: the pages and panels.

## Model

| member | source | states |
|---|---|---|
| MuLaw.BuildDecodeTable | supabase/functions/twilio-media-stream/index.ts:15-24 | the loop fills a fresh 256-entry table whose entry i is the expansion of byte i |
| MuLaw.Pow2Values | supabase/functions/twilio-media-stream/index.ts:19-23 | the powers of two the table's shifts stand for, from 2^0 to 2^15 |
| MuLaw.DecodeRange | supabase/functions/twilio-media-stream/index.ts:15-24 | every table entry lies in [-32124, 32124] |
| MuLaw.DecodeSignSymmetry | supabase/functions/twilio-media-stream/index.ts:15-24 | toggling bit 7 of a byte negates its expansion |
| MuLaw.FlipFields | supabase/functions/twilio-media-stream/index.ts:17-20 | toggling bit 7 keeps the exponent and mantissa fields and flips the sign field |
| MuLaw.DecodeZeros | supabase/functions/twilio-media-stream/index.ts:15-24 | both 0xFF and 0x7F expand to silence |
| MuLaw.Expansion | supabase/functions/twilio-media-stream/index.ts:19-22 | the magnitude an entry expands to lies in the segment its exponent names, and its mantissa is recovered from it |
| MuLaw.ExpansionArith | supabase/functions/twilio-media-stream/index.ts:21-22 | the bounds and the decomposition of (mantissa·8 + bias)·2^e |
| MuLaw.Segment | supabase/functions/twilio-media-stream/index.ts:36-42 | the exponent of a biased magnitude is at most 7, and the magnitude lies in [2^(e+7), 2^(e+8)) |
| MuLaw.SegmentUnique | supabase/functions/twilio-media-stream/index.ts:38-42 | that exponent is the only one bracketing the magnitude |
| MuLaw.Pow2Monotone | supabase/functions/twilio-media-stream/index.ts:38-42 | powers of two grow with the exponent |
| MuLaw.BitClear | supabase/functions/twilio-media-stream/index.ts:39-42 | a clear mask bit below 2^(k+1) means the value is below 2^k, so the loop's step is sound |
| MuLaw.BitSet | supabase/functions/twilio-media-stream/index.ts:39-42 | a set mask bit means the value is at least the mask, so the loop's stop is sound |
| MuLaw.LinearToMulaw | supabase/functions/twilio-media-stream/index.ts:27-45 | the mask loop returns a byte in 0..255, and it equals the encoding of the sample |
| MuLaw.EncodeClips | supabase/functions/twilio-media-stream/index.ts:29-36 | a magnitude beyond 32635 encodes exactly like ±32635 |
| MuLaw.EncodeDecode | supabase/functions/twilio-media-stream/index.ts:15-45 | encoding the expansion of b gives b back, except that 0x7F (negative zero) becomes 0xFF |
| MuLaw.PcmBytes | supabase/functions/twilio-media-stream/index.ts:57 | the little-endian bytes of n 16-bit samples are 2n bytes |
| MuLaw.SampleAt | supabase/functions/twilio-media-stream/index.ts:66 | an Int16Array view of two bytes is a 16-bit sample |
| MuLaw.PcmSamples | supabase/functions/twilio-media-stream/index.ts:66 | the view of 2n bytes has n samples, sample k being bytes 2k and 2k+1 |
| MuLaw.PcmBytesAt | supabase/functions/twilio-media-stream/index.ts:57-66 | sample k of the bytes of a sample list is sample k |
| MuLaw.PcmRoundTrip | supabase/functions/twilio-media-stream/index.ts:57-66 | viewing the bytes of 16-bit samples gives the samples back |
| MuLaw.Upsampled | supabase/functions/twilio-media-stream/index.ts:48-61 | n bytes upsample to 2n samples |
| MuLaw.UpsampledAt | supabase/functions/twilio-media-stream/index.ts:51-56 | sample 2i expands byte i; sample 2i+1 is the floor of the mean of that and the next expansion, and the last byte pairs with itself |
| MuLaw.UpsampledRange | supabase/functions/twilio-media-stream/index.ts:51-56 | interpolated samples stay in the table's range, so they fit in 16 bits |
| MuLaw.MulawToLinear16k | supabase/functions/twilio-media-stream/index.ts:48-61 | the fill loop yields 4n bytes: the little-endian bytes of the upsampled signal |
| MuLaw.UpsampledSamples | supabase/functions/twilio-media-stream/index.ts:48-61 | viewing the converted bytes as samples recovers the upsampled signal |
| MuLaw.Decimated | supabase/functions/twilio-media-stream/index.ts:67-71 | n samples decimate to floor(n/2) bytes |
| MuLaw.Linear16kToMulaw | supabase/functions/twilio-media-stream/index.ts:64-75 | an odd byte count fails, as the Int16Array view throws; otherwise the result has floor(bytes/4) bytes, byte i being the encoding of sample 2i |
| MuLaw.CanonicalAll | supabase/functions/twilio-media-stream/index.ts:15-45 | replacing negative zero keeps the length |
| MuLaw.DecimateUpsampled | supabase/functions/twilio-media-stream/index.ts:48-75 | decimating the upsampled signal gives the bytes back, with each 0x7F replaced by 0xFF |
| MuLaw.DownUpRoundTrip | supabase/functions/twilio-media-stream/index.ts:48-75 | the same round trip through the PCM bytes the bridge actually sends |
| AudioExtract.WalkSnoc | supabase/functions/twilio-media-stream/index.ts:77-84 | one more path step is a property access on what the shorter path reached |
| AudioExtract.WalkAppend | supabase/functions/twilio-media-stream/index.ts:77-84 | following p then q is following p + q |
| AudioExtract.GetNestedString | supabase/functions/twilio-media-stream/index.ts:77-84 | the walk down the path returns the string at the end of the path, or nothing when a key is missing, a step is not an object or the leaf is not a string |
| AudioExtract.FirstAudioSpec | supabase/functions/twilio-media-stream/index.ts:86-104 | nothing is found exactly when no path holds a non-empty string; otherwise the result is that of the earliest such path |
| AudioExtract.OnlyChunk | supabase/functions/twilio-media-stream/index.ts:87-103 | a message with only a top-level `audio_chunk` yields that chunk |
| AudioExtract.ExtractAudio | supabase/functions/twilio-media-stream/index.ts:86-104 | the candidate loop returns the first hit over the nine paths in order, never an empty string |
| ToolDispatch.Custom | supabase/functions/twilio-media-stream/index.ts:134 | a session parameter is present exactly when the parameters object holds the key |
| ToolDispatch.ChargeRequestOf | supabase/functions/twilio-media-stream/index.ts:274-282 | card fields come from the agent; invoice id and client name prefer the session; the amount prefers the agent's `amount_cents` and is 0 without either |
| ToolDispatch.LinkRequestOf | supabase/functions/twilio-media-stream/index.ts:323-331 | invoice id, number, client name, e-mail and call id prefer the session; the amount prefers the agent's and is 0 without either; the currency defaults to "eur" |
| ToolDispatch.SessionAmountUsed | supabase/functions/twilio-media-stream/index.ts:274-331 | without an agent amount, a decimal session `amountCents` is parsed and sent by both tools |
| ToolDispatch.RequestOf | supabase/functions/twilio-media-stream/index.ts:263-331 | a request is sent exactly for a recognised tool whose parameters can be read, with the body its tool calls for |
| ToolDispatch.Dispatch | supabase/functions/twilio-media-stream/index.ts:259-360 | exactly one result for `process_payment` and the three link aliases, none otherwise; it echoes `tool_call_id`; a throw or a null reply gives the technical-error text; otherwise the text is the tool's success template ("Payment successful! " + message, "Payment link sent to " + e-mail + ".") or its failure template (with `error`, then `message`, then "Unknown error"), and `is_error` is `!success` |
| ToolDispatch.ToolsDisjoint | supabase/functions/twilio-media-stream/index.ts:263-312 | no name is both the payment tool and a link tool |
| ToolDispatch.DeclinedCardReported | supabase/functions/twilio-media-stream/index.ts:289-298 | a declined charge is reported as "Payment failed: " plus the reason, as an error |
| ToolDispatch.LinkReplyRelayed | supabase/functions/twilio-media-stream/index.ts:323-347 | the reply the payment-link function gives is relayed as "Payment link sent to" its e-mail on success, or as its error message (or "Unknown error" when empty) marked as an error |
| Bridge.BytesToBinary | supabase/functions/twilio-media-stream/index.ts:58-59 | a binary string has one char per byte, with the byte's code |
| Bridge.BinaryToBytes | supabase/functions/twilio-media-stream/index.ts:49 | a string decodes exactly when every char is below 256, char for byte |
| Bridge.BinaryRoundTrip | supabase/functions/twilio-media-stream/index.ts:49-59 | decoding the binary string of bytes gives the bytes back |
| Bridge.InitFrame | supabase/functions/twilio-media-stream/index.ts:159-172 | each init variable is the session value when truthy, else its default ("the client", "on file", "an outstanding amount", "recently", "not available") |
| Bridge.InboundChunk | supabase/functions/twilio-media-stream/index.ts:384-386 | a missing `media` throws; without conversion the payload is forwarded unchanged |
| Bridge.AudioOut | supabase/functions/twilio-media-stream/index.ts:222-243 | no audio or no `streamSid` sends nothing; without conversion the extracted audio is forwarded unchanged |
| Bridge.ToolFrames | supabase/functions/twilio-media-stream/index.ts:259-360 | an agent message sends at most one tool result |
| Bridge.ToolRequests | supabase/functions/twilio-media-stream/index.ts:263-333 | an agent message makes at most one downstream request |
| Bridge.Session.constructor | supabase/functions/twilio-media-stream/index.ts:119-121 | no stream id, conversion on, no agent socket, Twilio open, empty logs |
| Bridge.Session.Start | supabase/functions/twilio-media-stream/index.ts:132-156 | records `streamSid` unless `start` is missing, and the parameters (default `{}`) only with a new agent socket; then a refused signed-URL reply closes Twilio and opens no agent socket; a rejected fetch, a failing `res.json()` or a refused socket URL leaves both sockets as they were; otherwise the agent is connecting |
| Bridge.Session.AgentOpen | supabase/functions/twilio-media-stream/index.ts:156-216 | the agent opens, and the init frame is its first frame from this step |
| Bridge.Session.Media | supabase/functions/twilio-media-stream/index.ts:381-395 | audio is forwarded only while the agent socket is open; nothing else changes |
| Bridge.Session.CloseAgent | supabase/functions/twilio-media-stream/index.ts:399 | an existing agent socket is closed; nothing else changes |
| Bridge.Session.Stop | supabase/functions/twilio-media-stream/index.ts:397-400 | `stop` closes the agent socket and nothing else |
| Bridge.Session.AgentClosed | supabase/functions/twilio-media-stream/index.ts:371-377 | the agent socket closing or failing on its own leaves it closed, so later media is not forwarded; nothing else changes |
| Bridge.Session.TwilioClose | supabase/functions/twilio-media-stream/index.ts:407-410 | the Twilio close closes the agent socket too |
| Bridge.Session.OnTwilioMessage | supabase/functions/twilio-media-stream/index.ts:127-405 | dispatch on `event`: for `start`, the same outcomes as Start with nothing sent to the agent; for `media`, the stream id, parameters and agent socket are kept and audio is forwarded only when the agent socket was open before the message; for `stop`, the agent socket is closed and the stream id and parameters are kept; anything else changes nothing; `useConversion` is untouched |
| Bridge.Session.ForwardAudio | supabase/functions/twilio-media-stream/index.ts:222-243 | a media frame goes to Twilio only for found audio with a stream id; a conversion failure or a send on a closed socket throws |
| Bridge.Session.FormatAndTools | supabase/functions/twilio-media-stream/index.ts:244-360 | conversion switches off only on a μ-law 8 kHz format report; the tool result and the request are logged |
| Bridge.Session.OnAgentMessage | supabase/functions/twilio-media-stream/index.ts:219-369 | audio first; if that threw, the rest is skipped; `useConversion` can only go from true to false |
| Bridge.ConversionRoundTrip | supabase/functions/twilio-media-stream/index.ts:48-75 | μ-law sent in, converted to PCM and echoed back by the agent, reaches Twilio as the same bytes with negative zero canonical |
| StatusCallback.MapStatus | supabase/functions/twilio-status-callback/index.ts:31-45 | queued/initiated/ringing → initiated, in-progress/answered → in-progress, completed → completed; anything else, a missing status included, → failed |
| StatusCallback.LowerUpper | supabase/functions/twilio-status-callback/index.ts:31 | lowercasing after uppercasing is lowercasing |
| StatusCallback.UpperCaseMapsAlike | supabase/functions/twilio-status-callback/index.ts:31 | the mapping ignores case |
| StatusCallback.BuildUpdates | supabase/functions/twilio-status-callback/index.ts:45-67 | the update is the record `IsUpdateFor` describes: the mapped status; `completed_at` set to the clock exactly for terminal states; `duration_seconds` exactly when `parseInt` yields a number; the completed and failed outcome texts, none otherwise |
| StatusCallback.UpdateDetermined | supabase/functions/twilio-status-callback/index.ts:48-67 | two records that both fit `IsUpdateFor` for the same callback are equal, so that description fixes every field |
| StatusCallback.HandleCallback | supabase/functions/twilio-status-callback/index.ts:14-81 | a form that cannot be read, or a client that cannot be created for a call id, gives 500 "Error" and no update; otherwise the reply is 200 "OK"; an update is made exactly when the form is read, `callId` is non-empty and the client is created, for that id and with the record `IsUpdateFor` describes |
| PaymentLink.ToSafeString | supabase/functions/send-payment-link/index.ts:13 | null/undefined give ""; anything else is the trimmed `String` of the value, which for a string is a substring of it with no white space at either end |
| PaymentLink.StripTrailingSlashes | supabase/functions/send-payment-link/index.ts:16 | a prefix with no trailing "/", the rest all "/" |
| PaymentLink.StripIdempotent | supabase/functions/send-payment-link/index.ts:16 | stripping twice is stripping once |
| PaymentLink.AppBaseUrl | supabase/functions/send-payment-link/index.ts:15-16 | `APP_BASE_URL`, then `FRONTEND_URL`, then the default, stripped |
| PaymentLink.ResolveEmailProvider | supabase/functions/send-payment-link/index.ts:18-38 | an explicit (lowercased) `resend` or `sendgrid` selects exactly that provider when its key is set, and otherwise fails with ChosenKeyMissing for it (the "EMAIL_PROVIDER is … but … is missing" text); any other explicit value fails with UnknownProvider; without one, resend wins over sendgrid, and with neither key it fails with NoProvider; a chosen provider always has its key |
| PaymentLink.ResendPreferred | supabase/functions/send-payment-link/index.ts:35 | with no explicit provider and a Resend key, Resend is chosen |
| PaymentLink.BodyFields | supabase/functions/send-payment-link/index.ts:126-134 | the invoice id from the body; the currency lowercased, defaulting to "eur" |
| PaymentLink.DecimalAmount | supabase/functions/send-payment-link/index.ts:132 | a decimal `amount_cents` string is the amount |
| PaymentLink.NumberOfDecimal | supabase/functions/send-payment-link/index.ts:132 | `Number` of a decimal string is its value |
| PaymentLink.IntegerLiteralOfDigits | supabase/functions/send-payment-link/index.ts:132 | a digit string reads as its decimal value |
| PaymentLink.FillIn | supabase/functions/send-payment-link/index.ts:147-150 | the invoice id, call id and currency are the body's; number, name and e-mail are the body's when non-empty, else the row's; the amount is the body's unless 0, else the row's `amount` (0 when missing) |
| PaymentLink.FillFromInvoice | supabase/functions/send-payment-link/index.ts:147-150 | the fields are exactly FillIn's: body values kept, the row filling an empty number, name or e-mail, and the amount only when 0 |
| PaymentLink.Resolved | supabase/functions/send-payment-link/index.ts:127-151 | the invoice id is the body's; the row fills the fields only for a non-empty id whose row was loaded |
| PaymentLink.Prepare | supabase/functions/send-payment-link/index.ts:115-158 | the row is looked up exactly for a configured request with a body and a non-empty invoice id; the outcome is Prepared's |
| PaymentLink.Prepared | supabase/functions/send-payment-link/index.ts:115-158 | success exactly when the credentials and processor key are set, the body is not null, any invoice id's row loaded, and the resolved e-mail is non-empty and the amount positive, with the resolved fields; otherwise the first failing check in source order, the missing e-mail before the bad amount |
| PaymentLink.Descriptor | supabase/functions/send-payment-link/index.ts:160 | "invoice X" with a number, "your invoice" without |
| PaymentLink.Subject | supabase/functions/send-payment-link/index.ts:201 | "Payment link for X" with a number, "Your payment link" without |
| PaymentLink.GreetingName | supabase/functions/send-payment-link/index.ts:203 | the client name, or "there" when empty |
| PaymentLink.EmailTextCarriesLink | supabase/functions/send-payment-link/index.ts:202-206 | the text starts with the greeting and contains the payment link |
| PaymentLink.SendPaymentEmail | supabase/functions/send-payment-link/index.ts:40-107 | a mail is sent exactly with a sender and the provider's key; the status is MailStatus's |
| PaymentLink.MailStatus | supabase/functions/send-payment-link/index.ts:53-106 | success exactly when the sender and key are set and the provider accepts, with the provider's status text; otherwise a missing sender, then a missing key, then the rejection with its status and detail; an unreachable provider gives the thrown error |
| PaymentLink.LinkEmail | supabase/functions/send-payment-link/index.ts:214-220 | the mail goes to the client's address and carries the link |
| PaymentLink.Notify | supabase/functions/send-payment-link/index.ts:200-220 | the status is NotifyStatus's; a mail is sent exactly when the provider resolves and is configured, to the client with the link |
| PaymentLink.NotifyStatus | supabase/functions/send-payment-link/index.ts:200-220 | a provider error is the failure; success exactly when the provider resolves, is configured and accepts the mail, with its status text |
| PaymentLink.Deliver | supabase/functions/send-payment-link/index.ts:162-230 | the reply is Delivered's; the link is stored exactly for an invoice id and a returned URL; no URL sends no mail; a Sent reply means the mail went to the client with that URL |
| PaymentLink.Delivered | supabase/functions/send-payment-link/index.ts:162-230 | Sent exactly when the session returns a URL and the mail step succeeds, echoing the URL, the client e-mail and the mail status; otherwise the session error, the missing URL, then the mail failure |
| PaymentLink.Handle | supabase/functions/send-payment-link/index.ts:109-238 | the reply is the preparation failure or Delivered's; Sent exactly when every step succeeds; steps in order; a checkout is created exactly for prepared fields, as CheckoutFor of them and the base URL; without configuration nothing is looked up or created; the link is stored exactly for prepared fields with an invoice id and a returned URL; a Sent reply echoes the e-mail and URL of the mail sent |
| EventStream.NewlineAt | src/pages/Chat.tsx:128 | the position found is inside the buffer |
| EventStream.NewlineAtSpec | src/pages/Chat.tsx:128 | it is the first "\n", and there is none exactly when nothing is found |
| EventStream.NewlineAtAppend | src/pages/Chat.tsx:125-128 | the first newline of s + b is s's, or b's shifted by s |
| EventStream.StripCr | src/pages/Chat.tsx:131 | the line, or the line less one trailing "\r" |
| EventStream.Payload | src/pages/Chat.tsx:134-143 | "[DONE]" ends the stream; a payload the parser rejects is unparsed |
| EventStream.QueryLine | src/components/dashboard/NlQueryBar.tsx:55-58 | only "data: " lines are considered |
| EventStream.SameLineRules | src/pages/Chat.tsx:131-143 | the chat page's rules and the query bar's rules agree on every line |
| EventStream.TrimSnoc | src/pages/Chat.tsx:132-134 | trailing white space does not change the trimmed line |
| EventStream.StripCrKeepsUnparsed | src/pages/Chat.tsx:131-145 | a line that does not parse still does not parse once its "\r" is removed |
| EventStream.RulesReparse | src/pages/Chat.tsx:143-145 | under both rule sets, a pushed-back line is read again as unparsed |
| EventStream.FirstLine | src/pages/Chat.tsx:128-131 | taking a line makes the buffer shorter |
| EventStream.FirstLineAppend | src/pages/Chat.tsx:125-131 | appending data does not change a complete first line |
| EventStream.ExhaustedLeavesPartialLine | src/pages/Chat.tsx:127-147 | when the loop runs out of lines, the rest holds no complete line |
| EventStream.DrainAppend | src/pages/Chat.tsx:127-147 | draining s + b is draining s, then draining its rest + b |
| EventStream.PushedBackIsStuck | src/pages/Chat.tsx:143-145 | after a push-back the buffer starts with a line that will never parse |
| EventStream.StuckDrain | src/pages/Chat.tsx:143-145 | a stuck buffer yields nothing and stays stuck |
| EventStream.Concat | src/pages/Chat.tsx:402-404 | no deltas join to "" |
| EventStream.ConcatAppend | src/pages/Chat.tsx:402-404 | joining is a homomorphism over concatenation |
| EventStream.ChatChunking | src/pages/Chat.tsx:117-149 | while streaming, the output does not depend on how the bytes are split into chunks |
| EventStream.ChatStopsAtDone | src/pages/Chat.tsx:122-137 | after "[DONE]" the chat reader stops and later chunks add nothing |
| EventStream.ChatStall | src/pages/Chat.tsx:122-148 | once a line cannot parse, no later chunk yields a delta |
| EventStream.ChatLines | src/pages/Chat.tsx:128-147 | the inner loop drains the buffer, and is done exactly at "[DONE]" |
| EventStream.StreamChat | src/pages/Chat.tsx:117-149 | the deltas are the reader's output over the chunks; completion is reached at "[DONE]" or at a clean end of the body |
| QueryBar.QueryReadsPastDone | src/components/dashboard/NlQueryBar.tsx:47-58 | "[DONE]" leaves only the inner loop: later chunks are still parsed and appended |
| QueryBar.QueryStall | src/components/dashboard/NlQueryBar.tsx:66-68 | once a line cannot parse, no later chunk adds to the answer |
| QueryBar.PartialsSpec | src/components/dashboard/NlQueryBar.tsx:61-65 | each shown answer is the concatenation of the deltas so far, in arrival order |
| QueryBar.PartialsAppend | src/components/dashboard/NlQueryBar.tsx:61-65 | the shown answers of two runs of deltas compose |
| QueryBar.QueryLines | src/components/dashboard/NlQueryBar.tsx:52-70 | the inner loop appends the drained deltas to the answer and shows each partial answer |
| QueryBar.ReadAll | src/components/dashboard/NlQueryBar.tsx:44-71 | the answer is the concatenation of the reader's deltas over all chunks |
| QueryBar.NlQueryBar.constructor | src/components/dashboard/NlQueryBar.tsx:14-15 | empty answer, not loading |
| QueryBar.NlQueryBar.Ask | src/components/dashboard/NlQueryBar.tsx:22-77 | a blank query, a request in flight or no account sends nothing; otherwise the answer is the joined deltas, or the apology on any failure, and loading is false afterwards |
| QueryBar.NlQueryBar.Receive | src/components/dashboard/NlQueryBar.tsx:41-73 | each delta read shows the answer so far; the answer changes only once a delta arrives, and a failed read ends with the apology |
| Chat.DemoTopicByRules | src/pages/Chat.tsx:47-62 | the demo topic is the first keyword rule that matches the lowercased prompt: payroll, invoice/overdue, cashflow, spend/expense, else the default |
| Chat.ContainsAnyOne | src/pages/Chat.tsx:49-58 | a one-word rule matches exactly when the word occurs |
| Chat.ContainsAnyTwo | src/pages/Chat.tsx:52-58 | a two-word rule matches exactly when either word occurs |
| Chat.IntentBySubstring | src/pages/Chat.tsx:64-70 | the intent holds exactly when the lowercased prompt contains a call verb and a collections word |
| Chat.ContainsPrefix | src/pages/Chat.tsx:68 | a prompt holding a longer alternative also holds its prefix |
| Chat.CollectionWordsReduce | src/pages/Chat.tsx:68 | the eleven alternatives match exactly like their eight shortest words |
| Chat.CallStatusLabelInjective | src/pages/Chat.tsx:72-77 | the four labels are distinct |
| Chat.PatchJobs | src/pages/Chat.tsx:263-267 | only jobs with the matching id are patched; the length is kept |
| Chat.UpdateCallJob | src/pages/Chat.tsx:261-268 | no run means no change; otherwise the run's jobs are patched |
| Chat.UpdateCallJobSpec | src/pages/Chat.tsx:261-268 | ids and counters stay; the patch sets the status and the error only when given; it is idempotent; no matching id means no change |
| Chat.Upsert | src/pages/Chat.tsx:403-411 | a trailing assistant message is replaced, otherwise one is appended; the length grows by at most 1; the last message is the text so far |
| Chat.UpsertSettles | src/pages/Chat.tsx:403-411 | an upsert is the settled history plus the reply, and repeated upserts stay on one reply |
| Chat.ChatPage.constructor | src/pages/Chat.tsx:155-161 | no messages, no run, not calling |
| Chat.ChatPage.ReceiveDeltas | src/pages/Chat.tsx:402-412 | the deltas accumulate into one assistant reply after the settled history; no delta leaves the messages alone |
| Chat.Selected | src/pages/Chat.tsx:281 | the first min(n, 5) candidates |
| Chat.InitialJobs | src/pages/Chat.tsx:292-299 | one queued job per selected invoice, with its id |
| Chat.CountAppend | src/pages/Chat.tsx:346-362 | one more call adds exactly one to started or one to failed |
| Chat.CountsCover | src/pages/Chat.tsx:302-368 | started + failed equals the number of calls made |
| Chat.CallsStep | src/pages/Chat.tsx:305-368 | the loop's remaining calls are one call, then the rest |
| Chat.CallsFrom | src/pages/Chat.tsx:305-368 | with distinct ids, from call k on each job ends in its outcome's status, and earlier jobs are untouched |
| Chat.CallsOutcome | src/pages/Chat.tsx:292-368 | with distinct ids, every selected job ends "started" or "failed" according to its call |
| Chat.ChatPage.DialAll | src/pages/Chat.tsx:305-368 | the loop counts the successes and failures and applies every call's patches to the run |
| Chat.ChatPage.TriggerCollectionCalls | src/pages/Chat.tsx:271-386 | no target gives no run and the intro and no-targets messages; otherwise the final run and the intro and summary messages; calling ends false |
| Chat.SummaryLimitNote | src/pages/Chat.tsx:372-375 | the summary ends with the limit note exactly when there were more than 5 candidates |
| Chat.SummaryPlural | src/pages/Chat.tsx:373 | "call" takes an "s" exactly when started ≠ 1 |
| InvoiceTable.Rank | src/components/dashboard/InvoiceTable.tsx:46-47 | ranks run from 0 to 4 |
| InvoiceTable.RankEnds | src/components/dashboard/InvoiceTable.tsx:46-47 | rank 0 exactly for overdue and rank 4 exactly for paid; null and unknown rank like unpaid |
| InvoiceTable.Insert | src/components/dashboard/InvoiceTable.tsx:44-48 | inserting adds one row |
| InvoiceTable.SortByStatus | src/components/dashboard/InvoiceTable.tsx:44-48 | the sort keeps the length |
| InvoiceTable.InsertMultiset | src/components/dashboard/InvoiceTable.tsx:44-48 | inserting adds exactly the row |
| InvoiceTable.InsertBound | src/components/dashboard/InvoiceTable.tsx:46-47 | inserting keeps a lower bound on the ranks |
| InvoiceTable.InsertSorted | src/components/dashboard/InvoiceTable.tsx:46-47 | inserting into a sorted list keeps it sorted |
| InvoiceTable.InsertBucket | src/components/dashboard/InvoiceTable.tsx:44-48 | inserting puts the row first among its rank's rows |
| InvoiceTable.SortPermutes | src/components/dashboard/InvoiceTable.tsx:44-48 | the sorted list is a permutation of the input, ordered by rank |
| InvoiceTable.SortStable | src/components/dashboard/InvoiceTable.tsx:44-48 | rows of equal rank keep their input order |
| InvoiceTable.Filter | src/components/dashboard/InvoiceTable.tsx:52-53 | a filter keeps at most the rows it was given |
| InvoiceTable.OverdueWithinOpen | src/components/dashboard/InvoiceTable.tsx:52-53 | there are no more overdue rows than open rows |
| InvoiceTable.TotalsBound | src/components/dashboard/InvoiceTable.tsx:51-60 | `overdueCount` ≤ `openCount` |
| InvoiceTable.FilterInsert | src/components/dashboard/InvoiceTable.tsx:51-60 | an insert changes neither a filter's count nor its sum |
| InvoiceTable.SumHead | src/components/dashboard/InvoiceTable.tsx:54-55 | the sum splits at the head |
| InvoiceTable.FilterSort | src/components/dashboard/InvoiceTable.tsx:51-60 | sorting changes neither a filter's count nor its sum |
| InvoiceTable.TotalsOfSorted | src/components/dashboard/InvoiceTable.tsx:44-60 | the totals of the sorted rows are those of the input |
| InvoiceTable.HandleChase | src/components/dashboard/InvoiceTable.tsx:83-100 | no phone does nothing; INV-047 with payroll at risk starts Fix-It; otherwise the calls page opens with the invoice |
| InvoiceTable.Capitalise | src/components/dashboard/InvoiceTable.tsx:284 | the first letter is upper-cased and the rest kept |
| InvoiceTable.StatusLabelSpec | src/components/dashboard/InvoiceTable.tsx:284 | null shows as "Unpaid"; a lower-case status is recovered from its label |
| InvoiceTable.ButtonsNest | src/components/dashboard/InvoiceTable.tsx:273-300 | "+Nd" implies Chase, which implies Link; Chase exactly for overdue rows, Link exactly for rows not paid, overdue rows and a missing status included |
| InvoiceTable.SavedPhone | src/components/dashboard/InvoiceTable.tsx:70 | the saved number is the edited one trimmed |
| Dashboard.Fallback | src/pages/Dashboard.tsx:45-48 | live rows when non-empty, demo rows otherwise |
| Dashboard.FetchAllSpec | src/pages/Dashboard.tsx:31-67 | demo mode exactly when the queries threw or all four were empty, and then every dataset is the demo one; each of the four queries (invoices, insights, projections, incidents) that returned rows is shown as returned |
| Dashboard.ApplyChange | src/pages/Dashboard.tsx:72-78 | UPDATE replaces rows with the matching id and keeps the length; INSERT prepends; anything else changes nothing |
| Dashboard.ChangesLength | src/pages/Dashboard.tsx:72-78 | only inserts grow the list, by one each |
| Dashboard.UpdateSpec | src/pages/Dashboard.tsx:72-78 | an update is idempotent, and an unknown id changes nothing |
| Dashboard.OpenIncident | src/pages/Dashboard.tsx:94 | the first open P1 incident, or none exactly when there is none |
| Dashboard.GapSign | src/pages/Dashboard.tsx:185 | "-" exactly for a negative gap, "+" otherwise |
| Dashboard.GapMagnitude | src/pages/Dashboard.tsx:186 | the shown magnitude is not negative |
| Dashboard.GapDisplay | src/pages/Dashboard.tsx:95-97 | sign and magnitude stand for the gap; without a payroll amount the gap is -220000 |
| Dashboard.AgreesWithTable | src/pages/Dashboard.tsx:98-100 | the outstanding total and the open and overdue counts agree with the invoice table's totals |
| Dashboard.OverdueSentenceSpec | src/pages/Dashboard.tsx:140-142 | zero gives the fixed text; otherwise the count leads, and the plural holds exactly when count ≠ 1 |
| FixIt.InitialValid | src/components/dashboard/FixItModal.tsx:39-44 | the initial state satisfies the counter invariant |
| FixIt.NextValid | src/components/dashboard/FixItModal.tsx:46-87 | every timer step keeps the counters within the three lists |
| FixIt.NextAdvances | src/components/dashboard/FixItModal.tsx:46-87 | the phase never goes back and moves one at most; each counter moves by at most 1; the duration changes exactly on a second in the call phase |
| FixIt.RenderedIsPrefix | src/components/dashboard/FixItModal.tsx:139-161 | the logs on screen are a prefix of the three scripts joined |
| FixIt.RenderedGrows | src/components/dashboard/FixItModal.tsx:46-87 | a step only extends the logs on screen |
| FixIt.ActivityReachesCall | src/components/dashboard/FixItModal.tsx:46-55 | timeouts show all 9 log lines, then the call |
| FixIt.PostCallReachesResolution | src/components/dashboard/FixItModal.tsx:67-76 | all 3 post-call lines come before the resolution |
| FixIt.ResolutionReachesComplete | src/components/dashboard/FixItModal.tsx:78-87 | all 3 resolution lines come before completion |
| FixIt.FixItModal.constructor | src/components/dashboard/FixItModal.tsx:39-44 | the modal opens in the initial state |
| FixIt.FixItModal.Fire | src/components/dashboard/FixItModal.tsx:46-87 | a timer firing updates the fields per the step function |
| FixIt.SecondsField | src/components/dashboard/FixItModal.tsx:89 | the seconds are exactly two digits worth s mod 60 |
| FixIt.FormatDurationSpec | src/components/dashboard/FixItModal.tsx:89 | the minutes floor(s/60), a colon, then two digits of s mod 60 |
| FixIt.FormatDurationInjective | src/components/dashboard/FixItModal.tsx:89 | different durations show differently |
| Benchmark.CountsCover | src/components/dashboard/BenchmarkPanel.tsx:21-27 | every row is counted under exactly one status |
| Benchmark.CountSnoc | src/components/dashboard/BenchmarkPanel.tsx:21-27 | one more row adds one to its status's count |
| Benchmark.ShippedCounts | src/components/dashboard/BenchmarkPanel.tsx:5-12 | the shipped table has two metrics of each status |
| Benchmark.Tally.constructor | src/components/dashboard/BenchmarkPanel.tsx:22 | the tally starts at zero |
| Benchmark.Tally.Bump | src/components/dashboard/BenchmarkPanel.tsx:23-24 | `acc[item.status] += 1` raises exactly one counter |
| Benchmark.Summarize | src/components/dashboard/BenchmarkPanel.tsx:21-27 | the counters are the per-status counts, summing to the number of rows |
| Benchmark.SummarizeShipped | src/components/dashboard/BenchmarkPanel.tsx:5-27 | the chips read 2 strong, 2 watch, 2 behind |
| Benchmark.StyleOfStatus | src/components/dashboard/BenchmarkPanel.tsx:14-18 | each status's classes are named after its colour, and different statuses get different icons |
| Text.Lower | supabase/functions/twilio-status-callback/index.ts:31 | character-wise ASCII lowercasing of the same length |
| Text.TrimSpec | supabase/functions/send-payment-link/index.ts:13 | a substring with no white space at either end |
| Text.TrimRemovesSpace | supabase/functions/send-payment-link/index.ts:13 | the trimmed text sits right after the leading white space, and only white space precedes and follows it |
| Text.ParseInt | supabase/functions/twilio-status-callback/index.ts:57 | `parseInt` fails exactly when no digit follows the optional sign |
| Text.ParseIntOfNat | supabase/functions/twilio-status-callback/index.ts:57 | parsing a printed number gives it back |
| Text.NatToStringValue | src/pages/Chat.tsx:373 | the printed decimal has the number's value |
| JsonValues.Get | supabase/functions/twilio-media-stream/index.ts:260 | a property access yields the field exactly when the value is an object holding the key |
| JsonValues.Or | supabase/functions/twilio-media-stream/index.ts:279-281 | the first operand when truthy, otherwise the second |

## Left out

- Base64 (`atob`/`btoa`) is transparent: payloads here are the binary strings it stands for.
- I/O is reduced to inputs: WebSockets, `fetch`, the HTTP server and upgrade, the database client, the payment processor, and the mail providers. The frames and writes made are logs or returned records.
- The handlers run as atomic steps. When `start` awaits the signed URL, other messages may arrive during the wait; that interleaving is not modelled.
- A second `start` replaces the agent socket without closing the old one. The model keeps a single agent-socket state, and the custom parameters belong to it: they change only when a `start` creates a socket, and an old socket's handlers are taken to see the newest parameters.
- `JSON.parse` is a parser oracle, and `JSON.stringify` produces structured frames. Parsing failures of the Twilio and agent messages are swallowed by the source's `catch`, and they are not modelled.
- Logging, `audioChunkCount`, and the agent prompt and first-message texts are left out, since they decide nothing.
- Numbers are integers. This leaves out `Number` on exotic forms, `Math.round` on fractions, NaN and float amounts.
- PaymentLink.FiniteOrZero: a NaN amount behaves like 0 in every later test, and it is modelled as 0.
- `toLowerCase` and `toUpperCase` map only ASCII letters. `trim` removes space, tab, line feed, carriage return, vertical tab, form feed, U+00A0 and U+FEFF; the other Unicode white space it also removes is not modelled. `parseInt` is a decimal-prefix parser.
- `statusMap` is a finite table. The inherited object-prototype keys of the JavaScript lookup are left out.
- InvoiceTable.Rank: the `order` lookup of the status sort has the same quirk. A status naming an inherited prototype key is ranked 2 here.
- Chat.ChatPage.TriggerCollectionCalls: the `catch` that reports "I hit an error while placing calls" is not modelled. Each call's outcome is an input and cannot throw, so the run always reaches its summary.
- StatusCallback.HandleCallback: the error result of the database update is only logged, so the model makes the update and ignores its result.
- PaymentLink.Handle: a client or payment-processor constructor that throws on malformed credentials is not modelled; only missing credentials fail.
- The dates are left out: `new Date()`, `toISOString` and `toLocaleDateString`. The status callback's timestamp is an input, and the date format is not modelled.
- `formatCurrency`, `daysOverdue` and `getInvoiceStatusColor` are not part of this model. The overdue day count is a parameter of InvoiceTable.ShowsOverdueDays.
- `TextDecoder` is left out: chunks are strings. The response checks of `streamChat` before the body is read are also left out.
- The chat page's `send`, beyond its streamed reply, is left out: message persistence, the demo branch and the error toast.
- The chat page's `getCallableInvoices`, the `calls` table writes and the `make-call` request are left out. Each call's invocation result is an input.
- The `isDemoInvoice` test is left out; it only changes what is written to the database.
- The checkout session's product texts and metadata are only partly stated. PaymentLink.ProductName and its siblings carry no contract of their own.
- PaymentLink.EmailHtml: the HTML body is built, but no property is stated about it.
- The Fix-It modal's timers are discrete `Timeout` and `Second` events, and their real timing is not modelled. How the eighth second races the end of the call is modelled as an event order the environment picks.
- The third-party `make-call` and `process-card-payment` functions are not part of this model.
- The soundwave's `Math.random` heights are left out.
- React rendering, CSS, icons, toasts, navigation, the PDF download and `savePhone`'s database call are UI or I/O. The realtime refetch of insights and incidents is also left out.
- The demo-content generators are not part of this model; the demo rows are parameters.
- `src/components/TopBar.tsx` is layout only.
- Dashboard.OverdueSentenceSpec: it does not state that the fixed text arises only for zero. The converse would require indexing the long fixed sentence.
