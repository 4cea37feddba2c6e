# wfh: a Dafny model of the `/wfh` slash-command reply builder

The wfh repository answers the Slack slash command `/wfh` with an in-channel
announcement that the invoking user works from home today, tomorrow or on
Monday. The announcement depends on the local weekday and time of day. It can
carry an image attachment chosen by a random draw. This project models that
reply builder as pure functions:

- the local clock is an input: `Calendar.LocalTime` holds the weekday in Go's
  numbering (Sunday = 0 ... Saturday = 6) and the wall-clock time of day, in
  nanoseconds;
- the random draw `rand.Intn(n)` is an input `draw` with `draw < n`;
- the SHA-1 digest of the decimal index, written as lowercase hex, is an input
  function `digest: nat -> string`;
- the time-zone lookup of `New` is an input function `loadLocation`, giving
  Go's error result;
- the JSON encoder's error result is an input function `encode`;
- the form parse of the HTTP request is an input: `Slash.FormParse`, either
  the parsed key→values map or the parse error.

Modules follow the source:

- `Payload`: the records shared by `internal/slack` and `slash`.
- `Slack` and `Slash`: the response constructors, `AddAttachment`, and the
  request decoding `NewCommandRequest`.
- `Calendar`: both message selectors.
- `Announce`: the message templates and their inverse `Parse`.
- `Picker`: the image index.
- `Wfh`: `New` and `Handle` of `internal/wfh`.
- `Server`: the `ServeHTTP` status order, which main.go and
  generator/handler.go share line for line.
- `Root` and `Generator`: the handler closures of main.go and of the generator
  package.
- `Strings`: prefix and suffix helpers.

The cutoff is 10:15:00.000 local time. The comparison `now.After(then)` is
strict (internal/wfh/wfh.go:65,67), so the instant 10:15:00.000 itself still
counts as before the cutoff. Reading the cutoff as "at or after" would be
wrong. `Calendar.After` is strictly greater.

internal/wfh/wfh.go:73 reads `req.UserId`, but the `slack.CommandRequest` it
is given declares that field as `UserID` (internal/slack/slack.go:11), so
internal/wfh does not compile as written. The model repairs this with a single
`userId` field, shared by both request types.

## Model

| member | source | states |
|---|---|---|
| Slack.NewInChannelCommandResponse | internal/slack/slack.go:53-58 | the reply is `in_channel`, its text is exactly the argument, and it has no attachments |
| Slack.AddAttachment | internal/slack/slack.go:25-27 | one more attachment; the new last one is the argument; the earlier ones, the response type and the text are unchanged |
| Slash.NewCommandResponse | slash/slash.go:62-67 | the reply is `ephemeral`, with text exactly the argument and no attachments |
| Slash.NewInChannelCommandResponse | slash/slash.go:69-74 | the reply is `in_channel`, with text exactly the argument and no attachments |
| Slash.AddAttachment | slash/slash.go:34-36 | appends at the end; the prefix, the response type and the text are kept |
| Slash.Get | slash/slash.go:82 | a form lookup yields the key's first value, or "" when the key is missing or has no value |
| Slash.NewCommandRequest | slash/slash.go:76-96 | a parse failure gives the zero request with that error; otherwise no error, and each of the 13 fields is the value of its own form key |
| Slash.KeysDistinct | slash/slash.go:82-94 | the 13 form keys are pairwise distinct |
| Slash.UpdateTouchesOneField | slash/slash.go:82-94 | changing one key's values changes only the field that key fills |
| Slash.DecodeToFormRoundTrip | slash/slash.go:81-95 | decoding the form built from any request gives that request back with no error, so the key→field mapping is injective |
| Calendar.Select | internal/wfh/wfh.go:64-71 | "Monday" exactly on Sunday, Saturday, or Friday strictly after 10:15; "tomorrow" exactly Monday–Thursday strictly after; "today" exactly Monday–Friday at or before the cutoff |
| Calendar.SelectWeekdayOver4 | generator/handler.go:76-86 | Friday and Saturday give "Monday" all day; Sunday never gives "Monday"; Sunday–Thursday give "tomorrow" strictly after the cutoff and "today" otherwise |
| Calendar.CutoffInstantIsBefore | internal/wfh/wfh.go:62-70 | at exactly 10:15:00.000 on Monday–Friday the canonical selector says "today"; the older one says "today", or "Monday" on Friday |
| Calendar.TodayOnlyBeforeLater | internal/wfh/wfh.go:64-71 | within one day, both selectors leave "today" at most once and never return to it |
| Calendar.SelectorsAgree | generator/handler.go:82-86 | the two selectors agree exactly on Monday–Thursday, on Saturday, and on Friday after the cutoff |
| Calendar.SelectorsDiffer | generator/handler.go:82-86 | on Sunday the canonical selector says "Monday" and the older says "tomorrow"/"today"; on Friday up to the cutoff they say "today" and "Monday" |
| Announce.Render | internal/wfh/wfh.go:73 | `fmt.Sprintf(template, userId)` (also main.go:102, generator/handler.go:88): the message is the mention prefix, then the user id verbatim, then the template's day phrase, and nothing else |
| Announce.ParseRender | internal/wfh/wfh.go:73 | the message with the user id substituted can be read back into the chosen template and that user id, for both wordings |
| Announce.ParseSound | internal/wfh/wfh.go:73 | whatever `Parse` reads back (template and user id) renders to exactly the message it came from, so text contracts stated through `Parse` fix the text |
| Announce.RenderInjective | internal/wfh/wfh.go:16-18 | two messages are equal only for the same template and the same user id |
| Picker.ImageIndex | internal/wfh/wfh.go:79-83 | the index lies in 1..max(1, n-1) and is never 0; a draw other than 0 is kept; the index is 1 exactly for draws 0 and 1; for n = 1 it equals n |
| Picker.IndexRange | internal/wfh/wfh.go:79-83 | some draw reaches index k exactly when 1 <= k <= max(1, n-1) |
| Picker.IndexOneDoubled | internal/wfh/wfh.go:79-83 | for n >= 2, index 1 is reached by the two draws 0 and 1, and every other index below n by exactly one draw |
| Wfh.WithTrailingSlash | internal/wfh/wfh.go:44-46 | the result ends with "/", extends the base by at most one character, and is the base itself when it already ends with "/" |
| Wfh.TemplateOf | internal/wfh/wfh.go:43-49 | an empty base stays empty; otherwise the template starts with the base, ends with "/%x.jpg", adds no slash when the base has one, and otherwise adds exactly one without doubling it |
| Wfh.TemplateIdempotent | internal/wfh/wfh.go:43-49 | the template keeps the slash-terminated base, and normalising that base again gives the same template |
| Wfh.ImageUrl | internal/wfh/wfh.go:89 | `fmt.Sprintf(template, hash)` (also generator/handler.go:101): the URL is the template's slash-terminated directory, then the hex digest in place of `%x`, then ".jpg" |
| Wfh.ImageUrlOfBase | internal/wfh/wfh.go:85-90 | the image URL is the slash-terminated base, the hex digest, then ".jpg", and starts with the configured base |
| Wfh.New | internal/wfh/wfh.go:29-52 | a non-empty time zone that fails to load gives no handler and that error; otherwise a handler with the normalised template and the image count |
| Wfh.Handle | internal/wfh/wfh.go:54-94 | another command gives the zero response and "invalid command …"; "/wfh" gives an `in_channel` reply announcing the selector's template for the request's user; it has one attachment exactly when the base URL is non-empty and the count is positive, titled "My excuse is %s" and linking the digest of an index in 1..max(1, n-1) |
| Wfh.NewThenHandle | internal/wfh/wfh.go:76-91 | with a non-empty base and images, the one attachment links base + "/" (if missing) + digest(i) + ".jpg" for some i in 1..max(1, n-1) |
| Server.ServeHttp | main.go:39-78 | non-POST gives 405; a form parse failure gives 400; 404 exactly for a decoded POST whose handler succeeded but whose command is not "/wfh"; 200, with the handler's response as body, exactly when everything succeeded |
| Server.RejectingHandlerNever404 | main.go:54-64 | the handler runs before the command check: behind a handler that rejects other commands, a wrong command gives 500, never 404 |
| Root.Handler | main.go:86-120 | returns a nil error (once the time zone has loaded); the reply is `in_channel`, announces the canonical selector's template for the user, and its attachments are exactly one `Attachment{Title: "My excuse is ...", ImageUrl: …}` with every other field zero, whose URL formats the digest of `ImageIndex(draw, 250)` (the draw, with 0 moved to 1), hence of an index in 1..249 |
| Root.ServeMain | main.go:54-64 | behind `ServeHTTP`, a decoded POST gets 404 exactly when its command is not "/wfh", and otherwise 200 with the handler's response unless encoding fails |
| Generator.Handler | generator/handler.go:75-105 | returns a nil error (once the time zone has loaded); the reply is `in_channel`, announces the older selector's template in the generator wording, and its attachments are exactly one `Attachment{Title: "Excuse", ImageUrl: …}` with every other field zero, linking "https://storage.googleapis.com/wfh/" + digest(`ImageIndex(draw, 250)`) + ".jpg", hence an index in 1..249 |
| Generator.ServeGenerator | generator/handler.go:45-55 | behind `ServeHTTP`, a decoded POST gets 404 exactly when its command is not "/wfh", and otherwise 200 with the handler's response unless encoding fails |

## Left out

- The HTTP server and Lambda entry points in cmd/wfh-http/main.go, cmd/lambda/main.go and cmd/wfh-lambda/main.go are not part of this model. They are transport shells. This includes the POST of the reply to `response_url` and the environment and configuration parsing.
- Request routing by the server mux to the "/wfh" path is not modelled. `ServeHttp` starts once a request has reached the handler.
- Time zones: `time.LoadLocation`, `time.Local` and the DST normalisation of `time.Date` are left out. The local weekday and time of day are inputs. On a day whose wall clock jumps, the model compares wall-clock times, not instants.
- Root.Handler / Generator.Handler: both closures discard the error of `time.LoadLocation("Australia/Sydney")` (main.go:89, generator/handler.go:78). If the zone database lacks that zone, `loc` is nil and `now.In(loc)` panics (main.go:90, generator/handler.go:79). The contract's nil error assumes the zone loads; the panic is not modelled.
- Randomness: the seeding of `math/rand` and the draw itself are left out. The draw is an input with `draw < n`.
- SHA-1 of `strconv.Itoa(index)` and its hex formatting (`%x` or `hex.EncodeToString`) are one input function `digest`.
- JSON encoding without HTML escaping is library behaviour. Its error result is the input `encode`.
- `fmt.Sprintf` is modelled only as far as these templates use it: the user id fills a template's single `%s`, and the digest replaces the trailing `%x` of the image template.
- Wfh.ImageUrl: a `%` inside the configured base URL itself is kept as text. Go's `Sprintf` would read it as another verb.
- main.go's package variable `bucket` is never assigned in that file, presumably at link time. `Root.Handler` takes `fmt.Sprintf(bucket, ·)` as the input `bucketFormat`.
- Picker.ImageIndex: the conversion `int(wfh.NumberOfImages)` of an unsigned count above 2^63 - 1 is not modelled. Go would wrap it to a negative number, and `rand.Intn` would panic.
- `Request.ParseForm` is an input outcome. `Slash.Form` stands for `r.PostForm`, the body values only: the request is filled from `PostForm`, so query-string values never reach it. `Slash.Malformed` covers a malformed body and also a malformed URL query, because `ParseForm` parses both.
- The bodies of error replies (`http.Error` texts) are not modelled, only their status codes.
- `Attachment` fields other than the title and the image URL are always zero values here. The `Field` record is declared but never filled. The 64-bit `Timestamp` is an unbounded integer.
- The optional echo of the command's free text is not done by any of the modelled handlers. The texts always end with the day phrase.
