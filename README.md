# goCS_bot notifier: a verified model

goCS_bot is a one-shot alert notifier for newly seen hosts. It takes five facts about the host: computer name, internal IP, external IP, user name and the triggering process. It asks an IP-lookup service whether the external IP is in China. If the answer says so, it fills a fixed Chinese alert template with the five facts and posts the text to two group-chat webhooks: WeCom (WeChat Work) first, then DingTalk. An error at any step ends the process at once. A rejected address ends it with exit status 1.

This project models the decision and formatting logic of `main.go` and proves what the program promises. The network enters only as given outcomes:

- the lookup is a function from the request URL to a body or an error;
- each webhook request has one outcome: delivered, encoding failed, POST failed, or the response could not be read.

Modules, in the order the program runs:

- `Strings` (strings.dfy): Go's `strings.Contains` as a character-level substring test, proved equal to "occurs at some position". Also splitting text into lines and joining lines back, and cutting a URL at its first `?`. The last two exist only to state properties.
- `Outcome` (outcome.dfy): the two channels, every fatal error, the final status (Success, Rejected, Fatal) and the exit code.
- `Geolocation` (geolocation.dfy): the lookup URL and the gate verdict `CheckIPchina`.
- `Alert` (alert.dfy): the alert template `ComposeAlert`, a parser `ParseAlert` proved to be its inverse, and `GenerateAlertMessage`, which runs the gate first.
- `Envelope` (envelope.dfy): the request body structs `WeChatBody`, `Text`, `DingDingBody` and `At`, the two webhook URLs, and the JSON tree that the structs' json tags describe. Decoders for that tree are proved to be exact inverses.
- `Notifier` (notifier.dfy): one webhook dispatch (`Dispatch`, covering both `wechatBot` and `dindinBot`) and one whole run (`Run`, i.e. `main`). `Run` returns the trace of POSTs attempted, in order, and the final status. Four client methods check four end-to-end scenarios by verification: domestic host, foreign host, failed lookup, failed WeCom POST.

Every non-success status exits with status 1. `log.Fatalf` calls `os.Exit(1)`, and a rejected address calls `os.Exit(1)` at main.go:121. The keys are the empty strings at main.go:141-142. The model takes them as parameters and checks nothing about them. All four client methods pass `""` for both keys, as the source does.

## Model

| member | source | states |
|---|---|---|
| `Strings.ContainsIff` | main.go:113 | The substring test is true exactly when the pattern occurs at some position of the text, in both directions; nothing is trimmed or case-folded |
| `Geolocation.LookupUrlCarriesIp` | main.go:100 | The lookup request goes to the CSDN IP endpoint and its `ip` parameter is exactly the address checked, unescaped |
| `Geolocation.IsChinaIff` | main.go:112-113 | The verdict on a body is true exactly when the characters 中 and 国 stand next to each other somewhere in it |
| `Geolocation.ShortBodyRejected` | main.go:113 | An empty body, or any body shorter than the marker, gives false |
| `Geolocation.IsChinaInContext` | main.go:113 | Any text before or after a matching body leaves the verdict true: the test is a raw substring match |
| `Geolocation.CheckIPchina` | main.go:99-114 | The gate queries the URL for the given IP. A failed GET or body read is fatal, each with its own error. Otherwise the answer is true exactly when the body contains the marker |
| `Alert.ComposeAlertLines` | main.go:124-125 | With single-line fields the alert is exactly seven lines: header; computer name, internal IP, external IP, user name, process, each after its label; then the call-to-action line |
| `Alert.ComposeAlertShape` | main.go:124-125 | For any fields the alert starts with "新主机上线！\n", ends with "\n请及时处理！@所有人", and holds each field verbatim right after its label and before a newline |
| `Alert.ParseCompose` | main.go:124-125 | Reading the five facts back from an alert built from single-line facts gives exactly those facts |
| `Alert.ComposeParse` | main.go:124-125 | Any text the parser accepts is exactly the alert of the facts it read, and those facts are single lines |
| `Alert.ComposeInjective` | main.go:124-125 | Two hosts whose facts are single lines never produce the same alert |
| `Alert.GenerateAlertMessage` | main.go:117-128 | The gate runs on the external IP first. The alert is composed only when the gate says true. A false verdict gives Rejected and nothing else; a lookup failure gives that Fatal error |
| `Outcome.ExitCode` | main.go:119-122 | Exit status 0 exactly on success; Rejected, and every fatal error, exit with status 1 |
| `Envelope.BodyForCarries` | main.go:46-77 | On either channel the body carries exactly the given text, with message type "text". The DingTalk body always mentions ["@all"] with isAtAll set |
| `Envelope.WeChatJsonShape` | main.go:22-50 | The WeCom body's tree has only the members "msgtype" and "text", never "at"; "msgtype" is "text" and "text" holds only "content", equal to the message |
| `Envelope.DingDingJsonShape` | main.go:33-77 | The DingTalk body's tree has "msgtype", "text" and "at"; "at" holds atMobiles ["@all"] and isAtAll true whatever the message |
| `Envelope.JsonRoundTrip` | main.go:22-43 | Decoding a channel's own tree gives back the body it came from |
| `Envelope.JsonExact` | main.go:22-43 | Any tree the decoder accepts is exactly the tree of the body it returns, and that body has the channel's shape |
| `Envelope.JsonChannelsDisjoint` | main.go:22-43 | A tree of one channel's body is never accepted as the other channel's body |
| `Envelope.UrlForCarriesKey` | main.go:56-83 | The WeCom URL is its send endpoint with the key as the `key` parameter. The DingTalk URL is its robot endpoint with the key as `access_token`. Each key comes back verbatim, whatever characters it holds |
| `Envelope.UrlForInjective` | main.go:56-83 | On one channel, different keys give different URLs |
| `Notifier.StepFailure` | main.go:51-92 | A dispatch reports no failure exactly when the request is delivered. Each failed step reports its own failure (encoding, POST or response read), tagged with the channel |
| `Notifier.FullTrace` | main.go:144-146 | A fully successful run posts twice, WeCom first, then DingTalk |
| `Notifier.Dispatch` | main.go:46-96 | A POST to the channel's URL with the channel's body is attempted, unless encoding failed. The message posted is the one given. The failure reported is that of the step that failed |
| `Notifier.Run` | main.go:130-148 | Gate, then compose, then WeCom, then DingTalk, stopping at the first failure. The trace is a prefix of [WeCom, DingTalk] whose length the outcomes fix. Both get the same text. Rejected or failed lookups post nothing. Success exactly when every step succeeds, with the full trace. Clauses listed below |

### What `Run` proves

These clauses are the postcondition of `Notifier.Run` (main.go:130-148):

- The POSTs attempted are always the first ones of a fully successful run. How many there are is fixed by the outcomes.
- Both channels get the same composed text.
- A rejected address: status Rejected, and nothing is posted.
- A failed lookup: that Fatal error, and nothing is posted.
- The status is Success exactly when every step succeeds. Then the run posts to WeCom and then to DingTalk, each once.
- A WeCom failure ends the run with that failure before DingTalk is tried.
- A DingTalk failure ends the run with that failure.

## Left out

- The HTTP GET of the lookup and the two HTTP POSTs, with the reading of their responses, are network I/O: they are the given outcomes.
- Any HTTP status counts as delivered, as in the source, which only logs the status code and response body. Their values are not modelled.
- `json.Marshal` is a library call. The model keeps the JSON tree named by the struct tags, with members in declaration order. Bytes, escaping and layout are not modelled. `json.Marshal` cannot fail on these structs, which hold only strings, a bool and a list of strings, so the error branches at main.go:52-54 and 79-81 are never taken. `EncodeError` models that error path, which the code has but never takes.
- `os.Exit` and `log.Fatalf` are modelled only as terminal statuses, and the process itself is not.
- All `log.Printf` output, including the final log of the alert text (main.go:147), is logging only.
- Flag parsing (main.go:133-139) is command-line plumbing: the five facts are plain inputs.
- `defer response.Body.Close()` releases a resource and has no effect on the outcome.
- Strings are sequences of Unicode characters. Go's `strings.Contains` compares UTF-8 bytes; the two agree on valid UTF-8, and invalid UTF-8 in a lookup body is not modelled.
- `ParseAlert` and the seven-line view need fields without newlines. The source never checks for them. With a newline in a field the alert still holds every field verbatim (`ComposeAlertShape`), but it cannot be split back into the facts.
