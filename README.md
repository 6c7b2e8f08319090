# SRCCON transcript alert bot: a Dafny model

The bot posts a reminder into subscribed Slack workspaces when a SRCCON 2017
session with live transcription is about to start. A cron job runs every
minute. It truncates the current time to the minute, formats it as a
`YYYY-MM-DD HH:mm` key and looks that key up in the `transcripts` schedule.
On a hit, each session of the matched time block becomes one Slack post with
one attachment. Each post goes to every stored team that has an incoming
webhook; in debug mode it goes only to the team named `OpenNews`. On a miss,
the bot only logs a heartbeat.

Modules:

- `Wrappers`: the optional value.
- `Clock`: clock readings, truncation to the minute, and the minute key format. `ParseKey` is the partner of `Format`; the two are proved inverse.
- `Schedule`: session records, the `transcripts` map built from its authored entries, and `checkTimeMatch`. Also a two-block sample of the 2017 schedule.
- `Alert`: the attachment built for a session, and `sendAlert`'s choice between a plain post and one structured post per session. `LinkTarget` reads a Slack `<url|caption>` link back, to check the rendered links; it finds the first `|` with the helper `IndexOf`.
- `Dispatch`: team eligibility, the `postToSlack` loop with its counter and per-team outcomes, and the onboarding message.
- `Bot`: one tick end to end.

Two points about what the code does:

- The logged count is the number of eligible teams, i.e. the send attempts (srcconbot.js:127). It is not the number of successful deliveries.
- The onboarding message goes straight to the team that just installed the bot (srcconbot.js:156-160). It does not pass through the debug filter.

## Model

| member | source | states |
|---|---|---|
| Clock.StartOfMinute | srcconbot.js:70 | seconds and milliseconds become zero; the calendar minute is kept |
| Clock.Format | srcconbot.js:71 | a minute key is always 16 characters long |
| Clock.ParseKey | srcconbot.js:166 | a string that parses has the `YYYY-MM-DD HH:mm` layout and in-range fields |
| Clock.ParseFormat | srcconbot.js:166 | parsing the key of a valid minute gives back that minute |
| Clock.FormatParse | srcconbot.js:166 | a string that parses is exactly the key of the minute it parses to |
| Clock.FormatInjective | srcconbot.js:71 | two valid minutes have the same key if and only if they are the same minute |
| Clock.Key | srcconbot.js:166 | the `key` helper gives the canonical key of a parsable date-time and `Invalid date` otherwise |
| Clock.KeyIdempotent | srcconbot.js:162-166 | applying `key` to a canonical key returns it unchanged |
| Clock.NowKey | srcconbot.js:70-71 | the current key parses back to the minute of the reading |
| Clock.SameKeyIffSameMinute | srcconbot.js:66-71 | two readings give the same key if and only if they fall in the same minute; seconds and milliseconds never matter |
| Clock.KeyMatchesNow | srcconbot.js:162-166 | an authored date-time's key equals the current key if and only if it parses to the current minute; `Invalid date` never matches |
| Schedule.BuildTranscripts | srcconbot.js:167-414 | the object literal's keys are the computed keys of its entries, and the last entry is what its key maps to |
| Schedule.EntryLookup | srcconbot.js:167-414 | an entry whose key no later entry repeats is exactly what its key looks up |
| Schedule.CheckTimeMatch | srcconbot.js:69-78 | alerts if and only if the current key is present, with that key's whole list (even an empty one); otherwise a heartbeat carrying the truncated time |
| Schedule.SameMinuteSameCheck | srcconbot.js:66-78 | two readings in the same minute give the same outcome |
| Schedule.ConfiguredMinuteAlerts | srcconbot.js:69-78 | checking at the minute an entry was authored for alerts with exactly that entry's sessions, in order |
| Schedule.UnconfiguredMinuteIsHeartbeat | srcconbot.js:69-78 | checking at a minute that no entry was authored for only logs a heartbeat; a minute off never matches |
| Schedule.SampleEntriesParse | srcconbot.js:168-200 | the sample's authored times parse to 10:00 and 11:45 on 2017-08-03 |
| Schedule.SampleScenarioHit | srcconbot.js:168-199 | at 2017-08-03 10:00:00 the three 10:00 sessions are alerted, in listed order |
| Schedule.SampleScenarioMiss | srcconbot.js:168-200 | at 2017-08-03 10:01:00 only a heartbeat is logged |
| Alert.RenderAttachment | srcconbot.js:89-113 | thumbnail, banner pretext and colour are the fixed constants; title, text and facilitators come from the session; the title link and both field links are built from the id; there are exactly three fields, in the order Facilitator(s), Transcript, Schedule, and only the last two are short |
| Alert.TranscriptFieldLinksToTitle | srcconbot.js:95-105 | for an id without `|`, the Transcript field's link targets the same url as the title link |
| Alert.ScheduleFieldLinksToSession | srcconbot.js:107-110 | for an id without `|`, the Schedule field's link targets the schedule url with the session id appended |
| Alert.TitleLinkDeterminesId | srcconbot.js:95 | two sessions get the same title link if and only if they have the same id |
| Alert.StructuredPosts | srcconbot.js:88-115 | one post per session, in time-block order, each holding exactly that session's attachment |
| Alert.SendAlert | srcconbot.js:84-117 | a non-empty message gives exactly one plain post and ignores the time block; otherwise one structured post per session, in order |
| Alert.HasMessage | srcconbot.js:85 | the `if (message)` test: true only for a present, non-empty message; an absent message is false |
| Alert.EmptyMessageIsStructured | srcconbot.js:85 | an empty message is falsy, so it takes the structured path |
| Dispatch.Eligible | srcconbot.js:126 | an eligible team always has an incoming webhook; in debug mode it is also named OpenNews; with debug off, every team with a webhook is eligible |
| Dispatch.Recipients | srcconbot.js:125-137 | the teams the loop sends to: never more than the stored teams, and each one eligible |
| Dispatch.ErrorLog | srcconbot.js:131-135 | the errors the send callbacks log, in send order: at most one per send, and none when every send succeeds |
| Dispatch.Attempts | srcconbot.js:128-135 | one send per recipient, in order, each with the transport's own outcome |
| Dispatch.PostToSlack | srcconbot.js:122-140 | sends to exactly the eligible teams in store order, whatever the outcomes; the count equals the number of eligible teams |
| Dispatch.RecipientsExact | srcconbot.js:126 | a team is sent to if and only if it is stored and eligible |
| Dispatch.NormalRecipients | srcconbot.js:126 | with debug off, a team is sent to if and only if it has an incoming webhook |
| Dispatch.DebugRecipients | srcconbot.js:126 | with debug on, a team is sent to if and only if it is named OpenNews and has an incoming webhook |
| Dispatch.DebugNarrowsNormal | srcconbot.js:126 | the debug recipients are the normal recipients filtered again, in the same order |
| Dispatch.DebugSubsetOfNormal | srcconbot.js:126 | every debug recipient is also a normal recipient |
| Dispatch.CountIsAttempts | srcconbot.js:124-138 | every send either succeeds or logs exactly one error, so the count of attempts is the successes plus the logged errors |
| Dispatch.SameAudience | srcconbot.js:122-140 | the teams reached, and their order, do not depend on the payload or the outcomes of other sends |
| Dispatch.NoFailuresAllDelivered | srcconbot.js:128-138 | with no failing send, every attempt is a success and nothing is logged |
| Dispatch.Onboard | srcconbot.js:156-160 | the newly installed team itself receives the fixed welcome text as a plain post |
| Bot.DeliverAlert | srcconbot.js:84-117 | one batch of sends per post of `sendAlert`, in post order, each batch going to the eligible teams, with each logged count equal to their number |
| Bot.Tick | srcconbot.js:69-78 | on a hit, each session of the matched list is posted, in order, to every eligible team; on a miss, nothing is sent and only the heartbeat is produced |

## Left out

- Loading `CLIENTID`, `CLIENTSECRET` and `PORT`, and exiting when one is missing (srcconbot.js:18-33): process start-up.
- The Redis store, the Botkit controller, the OAuth web server and its redirect (srcconbot.js:35-54, 144-153): library and network code. The stored teams are a parameter. The error argument of `teams.all` is ignored by the code, and a missing list iterates as an empty one; the model just takes the list.
- The timezone conversion by moment-timezone (srcconbot.js:60-64): clock readings are taken as already in America/Chicago. Daylight-saving rules are not modelled.
- The cron timer (srcconbot.js:419-420): one tick is one call of `Bot.Tick` with the reading as an argument.
- The asynchronous callbacks of `teams.all` and `sendWebhook`: sends run in a sequential loop, and each send's outcome comes from a transport function. The interleaving of the "Message sent to N teams!" line with the error lines is not modelled.
- The text of the log lines. The heartbeat carries the truncated instant rather than moment's default rendering of it. The count is returned rather than printed.
- The literal schedule data (srcconbot.js:168-413): only a two-block sample is included, with the real ids, titles and facilitators and shortened descriptions.
- Clock.ParseKey: accepts only the canonical `YYYY-MM-DD HH:mm` layout, with any day from 1 to 31. moment also parses other layouts and rejects days that do not exist in the month.
- Alert.TranscriptFieldLinksToTitle: assumes the session id contains no `|`. An id that did would cut the link short in Slack's markup. All ids in the data are plain slugs.
- Alert.ScheduleFieldLinksToSession: assumes the session id contains no `|`, for the same reason: such an id would cut the schedule link short in Slack's markup.
