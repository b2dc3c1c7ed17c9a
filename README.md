# Teams echo bot: message handler and batched listings

This project models the message handler of the Teams echo bot sample
(`TeamsEchoBot`). Each incoming message is handled in four steps:

1. The bot echoes the message as `"Echo: " + text`.
2. It strips the mention of the bot from the activity's text, in place.
3. It dispatches on the stripped text. `"show members"` and `"show channels"`
   send a `Total of N ...` header and then a listing. `"show details"` sends one
   message about the team. Any other text gets the help text.
4. A listing is sent by `SendInBatches`. This routine buffers the listing lines in
   a list. Each time the list holds ten lines, it sends them as one message joined
   with `<br>` and clears the list. When the input is exhausted, it sends whatever
   is left as one last message.

The model has four modules:

- `Batching` is the pure specification of the batching. `Chunks(s, n)` cuts the
  input into consecutive runs of `n`. `Join` is .NET's `string.Join`. `Render`
  and `BatchMessages` give the text sent for each batch. The lemmas prove the
  following about batches (not about the joined strings, which lose line
  boundaries): the input is reproduced in order, there are ceil(N/10) sends, each
  batch holds 1..10 lines and every batch but the last holds 10, and `Chunks` is
  the only cut with these properties. No order-preserving cut into batches of at
  most ten lines uses fewer messages.
- `Transport` models the turn context. The class `TurnContext` has the activity
  text, which the handler rewrites in place, and an `outbox` of delivered texts.
  `SendActivity` appends to the outbox. A send can fail, and nothing in the bot
  catches the exception. The model captures this with `failAt`, the outbox
  position whose send the transport rejects. The function `Deliver` gives the
  meaning of a run of sends that stops at the first rejection.
- `Formatting` holds the texts the bot composes. These are the decimal count in
  the headers, the channel line `id --> name`, the member line
  `aadObjectId --> name -->  upn` (two spaces after the last arrow), the details
  text, the help text and the echo.
- `TeamsEchoBot` holds the handler. `ParseCommand` models the `switch`.
  `TurnReplies` is the whole sequence of texts a turn sends when no send fails.
  The methods `SendInBatches`, `ShowChannels`, `ShowMembers`, `ShowDetails` and
  `OnMessageActivity` are imperative. Each one is proved to leave the outbox as
  `Deliver(old outbox, <its specified texts>, failAt)`.

`SendInBatches` keeps the source's buffer as a local sequence that grows by one
line and is reset after each flush. Two loop invariants state that the buffer holds
0..9 lines and that it is the consumed input minus everything already flushed. The
third is the predicate `FlushedUpTo`: the flushed batches concatenate to the input
before the buffer, each holds exactly ten lines, and the outbox is the delivery of
their rendered texts. Each way a step can end has its own lemma: `FlushAccepted`
for a flush that goes through, `FlushRejected` for one that is rejected, and
`FinalFlush` for the last partial batch. These rely on `ChunksAfterFullBatches`,
which identifies the flushed batches with a prefix of `Chunks(messages, 10)`.

The external inputs are modelled as follows:

- The directory lookups are a `Directory` value passed to the handler.
- `RemoveRecipientMention` is a function parameter `removeMention: string -> string`.
- `MessageFactory.Text` is the identity: an activity is its text.

The source fixes the batch size at 10. The batching lemmas are stated for any
positive size `n`, and the handler uses `MaxBatchSize = 10`.

## Model

| member | source | states |
|---|---|---|
| `Batching.Chunks` | experimental/teams/csharp-dotnetcore/TeamsEcho/Bots/TeamsEchoBot.cs:85-100 | defines the cut the buffer-and-flush loop makes: consecutive runs of n lines, the last run holding what is left over (its properties are the lemmas below) |
| `Batching.ChunksFlatten` | experimental/teams/csharp-dotnetcore/TeamsEcho/Bots/TeamsEchoBot.cs:86-99 | concatenating the batches in send order gives back the input lines exactly: nothing lost, duplicated or reordered |
| `Batching.ChunksWellShaped` | experimental/teams/csharp-dotnetcore/TeamsEcho/Bots/TeamsEchoBot.cs:88-100 | every batch holds between 1 and n lines, every batch but the last exactly n; there are no batches only when there is no input (no empty send) |
| `Batching.ChunksCount` | experimental/teams/csharp-dotnetcore/TeamsEcho/Bots/TeamsEchoBot.cs:85-100 | the number of batches is ceil(N / n), so 0 for no input and no trailing empty batch for a multiple of n |
| `Batching.ChunksUnique` | experimental/teams/csharp-dotnetcore/TeamsEcho/Bots/TeamsEchoBot.cs:85-100 | any list of batches of at most n lines, all full but the last, that concatenates to the input is exactly `Chunks(input, n)` |
| `Batching.ChunksFewest` | experimental/teams/csharp-dotnetcore/TeamsEcho/Bots/TeamsEchoBot.cs:85-100 | no order-preserving cut of the input into batches of at most n lines has fewer batches than `Chunks`: the loop sends the fewest possible messages |
| `Batching.ChunksFront` | experimental/teams/csharp-dotnetcore/TeamsEcho/Bots/TeamsEchoBot.cs:90-94 | with at least n lines, the first batch is the first n lines and the rest are the batches of what follows |
| `Batching.ChunksAfterFullBatches` | experimental/teams/csharp-dotnetcore/TeamsEcho/Bots/TeamsEchoBot.cs:88-94 | if the batches flushed so far each hold n lines and together are the first k lines, the batches of the whole input are those followed by the batches of the rest: flushing full buffers keeps the sent batches a prefix of `Chunks` |
| `Batching.FlattenAppend` | experimental/teams/csharp-dotnetcore/TeamsEcho/Bots/TeamsEchoBot.cs:86-99 | concatenation of batches distributes over appending batch lists (what is sent later follows what was sent earlier) |
| `Batching.BatchScenarios` | experimental/teams/csharp-dotnetcore/TeamsEcho/Bots/TeamsEchoBot.cs:85-100 | 23 lines give batches 10, 10, 3; 10 lines give one batch; 1 line gives one batch; 0 lines give none |
| `Batching.Join` | experimental/teams/csharp-dotnetcore/TeamsEcho/Bots/TeamsEchoBot.cs:92 | the joined text starts with the first line, is the line itself for a single line, and its length is the lines' total length plus one delimiter between each two lines |
| `Batching.Render` | experimental/teams/csharp-dotnetcore/TeamsEcho/Bots/TeamsEchoBot.cs:92-99 | one text per batch, in batch order, each the batch joined with `<br>` |
| `Batching.BatchMessages` | experimental/teams/csharp-dotnetcore/TeamsEcho/Bots/TeamsEchoBot.cs:90-99 | defines the texts a listing's lines are sent as: the lines cut into batches of ten, each joined with `<br>` |
| `Batching.BatchMessagesShape` | experimental/teams/csharp-dotnetcore/TeamsEcho/Bots/TeamsEchoBot.cs:90-99 | a listing is ceil(N / 10) messages, and message i is batch i joined with `<br>` |
| `Batching.JoinLosesLineBoundaries` | experimental/teams/csharp-dotnetcore/TeamsEcho/Bots/TeamsEchoBot.cs:92 | for all strings a and b, the one line `a<br>b` renders exactly like the two lines a and b, so the round trip is stated on batches, not on the joined text |
| `Transport.Deliver` | experimental/teams/csharp-dotnetcore/TeamsEcho/Bots/TeamsEchoBot.cs:19-43 | defines a run of sends: texts are appended one by one and the first rejected send ends the run, since nothing in the handler catches its exception |
| `Transport.DeliverClosedForm` | experimental/teams/csharp-dotnetcore/TeamsEcho/Bots/TeamsEchoBot.cs:83-101 | if the k-th send is rejected, exactly the texts before it are delivered and the run reports failure; otherwise every text is delivered in order |
| `Transport.DeliverAppend` | experimental/teams/csharp-dotnetcore/TeamsEcho/Bots/TeamsEchoBot.cs:17-43 | sending a then b is sending a and, only if all of a went through, then b: no send happens after a failed one |
| `Transport.DeliverStep` | experimental/teams/csharp-dotnetcore/TeamsEcho/Bots/TeamsEchoBot.cs:92 | after a run in which every send went through, one more text is sent from the outbox that run left |
| `Transport.DeliverStopped` | experimental/teams/csharp-dotnetcore/TeamsEcho/Bots/TeamsEchoBot.cs:92 | once a send has been rejected, nothing further is delivered whatever else was to be sent |
| `Transport.DeliverPrefix` | experimental/teams/csharp-dotnetcore/TeamsEcho/Bots/TeamsEchoBot.cs:83-101 | the outbox only grows, by a prefix of the texts; success means all of them were delivered; failure means the outbox stopped at the rejected position |
| `Transport.TurnContext.SendActivity` | experimental/teams/csharp-dotnetcore/TeamsEcho/Bots/TeamsEchoBot.cs:19 | the text is appended to the outbox unless the transport rejects it; a rejected send delivers nothing |
| `Transport.TurnContext.constructor` | experimental/teams/csharp-dotnetcore/TeamsEcho/Bots/TeamsEchoBot.cs:17 | a turn starts with the incoming activity's text and nothing sent |
| `Formatting.NatToString` | experimental/teams/csharp-dotnetcore/TeamsEcho/Bots/TeamsEchoBot.cs:63 | a count renders as a non-empty string of decimal digits with no leading zero ("0" for zero) |
| `Formatting.NatToStringRoundTrip` | experimental/teams/csharp-dotnetcore/TeamsEcho/Bots/TeamsEchoBot.cs:63 | the rendered count reads back as the count |
| `Formatting.NatToStringInjective` | experimental/teams/csharp-dotnetcore/TeamsEcho/Bots/TeamsEchoBot.cs:74 | different counts render differently |
| `Formatting.HeaderStatesCount` | experimental/teams/csharp-dotnetcore/TeamsEcho/Bots/TeamsEchoBot.cs:63-74 | in both "Total of N ..." headers the digits after "Total of " read back as the entry count, and a space follows them |
| `Formatting.ChannelsHeader` | experimental/teams/csharp-dotnetcore/TeamsEcho/Bots/TeamsEchoBot.cs:63 | defines the channel listing header "Total of N channels are currently in team" |
| `Formatting.MembersHeader` | experimental/teams/csharp-dotnetcore/TeamsEcho/Bots/TeamsEchoBot.cs:74 | defines the member listing header "Total of N members are currently in team" |
| `Formatting.DetailsText` | experimental/teams/csharp-dotnetcore/TeamsEcho/Bots/TeamsEchoBot.cs:49 | defines the details reply: team name, team id and AAD group id, each in `<b>` tags |
| `Formatting.HelpText` | experimental/teams/csharp-dotnetcore/TeamsEcho/Bots/TeamsEchoBot.cs:38-40 | defines the help reply, the three sentences naming the commands |
| `Formatting.ChannelLine` | experimental/teams/csharp-dotnetcore/TeamsEcho/Bots/TeamsEchoBot.cs:67 | a channel line is the id, then `" --> "`, then the name, each recoverable at its offset |
| `Formatting.MemberLine` | experimental/teams/csharp-dotnetcore/TeamsEcho/Bots/TeamsEchoBot.cs:78 | a member line is the AAD object id, `" --> "`, the name, `" -->  "` (two spaces), the user principal name, each recoverable at its offset |
| `Formatting.ChannelLines` | experimental/teams/csharp-dotnetcore/TeamsEcho/Bots/TeamsEchoBot.cs:67 | one line per channel, in directory order |
| `Formatting.MemberLines` | experimental/teams/csharp-dotnetcore/TeamsEcho/Bots/TeamsEchoBot.cs:77-78 | one line per member, in directory order |
| `Formatting.EchoText` | experimental/teams/csharp-dotnetcore/TeamsEcho/Bots/TeamsEchoBot.cs:19 | the echo is "Echo: " followed by the incoming text unchanged |
| `TeamsEchoBot.ParseCommand` | experimental/teams/csharp-dotnetcore/TeamsEcho/Bots/TeamsEchoBot.cs:23-41 | each command is selected exactly when the text equals its command string; any other text selects the help reply |
| `TeamsEchoBot.ChannelsReplies` | experimental/teams/csharp-dotnetcore/TeamsEcho/Bots/TeamsEchoBot.cs:63-69 | defines what a channel listing sends when no send fails: the "Total of N channels" header, then the batched channel lines |
| `TeamsEchoBot.MembersReplies` | experimental/teams/csharp-dotnetcore/TeamsEcho/Bots/TeamsEchoBot.cs:74-80 | defines what a member listing sends when no send fails: the "Total of N members" header, then the batched member lines |
| `TeamsEchoBot.CommandReplies` | experimental/teams/csharp-dotnetcore/TeamsEcho/Bots/TeamsEchoBot.cs:23-41 | defines the replies of each command: a listing header plus its batches, the details text, or the help text |
| `TeamsEchoBot.TurnReplies` | experimental/teams/csharp-dotnetcore/TeamsEcho/Bots/TeamsEchoBot.cs:19-41 | defines the texts a turn sends when no send fails: the echo of the unstripped text, then the replies of the command read from the stripped text |
| `TeamsEchoBot.TurnRepliesShape` | experimental/teams/csharp-dotnetcore/TeamsEcho/Bots/TeamsEchoBot.cs:17-43 | a turn sends the echo first and then exactly one of: the member listing, the channel listing, the details text, or the help text, chosen only by whether the mention-stripped text equals one of the three command strings |
| `TeamsEchoBot.ListingRepliesShape` | experimental/teams/csharp-dotnetcore/TeamsEcho/Bots/TeamsEchoBot.cs:63-80 | a listing of N entries is the "Total of N ..." header followed by the rendered batches of its lines: 1 + ceil(N/10) messages |
| `TeamsEchoBot.ListingKeepsEveryLine` | experimental/teams/csharp-dotnetcore/TeamsEcho/Bots/TeamsEchoBot.cs:83-101 | a listing's batches carry every line once, in order, at most ten and at least one to a message, all but the last exactly ten |
| `TeamsEchoBot.FlushAccepted` | experimental/teams/csharp-dotnetcore/TeamsEcho/Bots/TeamsEchoBot.cs:90-94 | a full buffer of ten lines whose send goes through becomes one more flushed batch: the flushed batches still concatenate to the consumed lines, are all full, and were all delivered |
| `TeamsEchoBot.FlushRejected` | experimental/teams/csharp-dotnetcore/TeamsEcho/Bots/TeamsEchoBot.cs:90-94 | when the send of a full buffer is rejected, the outbox is exactly what delivering the whole listing would leave, and the run fails |
| `TeamsEchoBot.FinalFlush` | experimental/teams/csharp-dotnetcore/TeamsEcho/Bots/TeamsEchoBot.cs:97-100 | once the input is used up, the listing owes exactly the leftover buffer as one last message, or nothing when the buffer is empty |
| `TeamsEchoBot.SendInBatches` | experimental/teams/csharp-dotnetcore/TeamsEcho/Bots/TeamsEchoBot.cs:83-101 | the buffer-and-flush loop leaves the outbox as the delivery of `Render(Chunks(messages, 10))`, stopping at the first rejected send; its invariants keep the buffer at 0..9 lines equal to the consumed input minus what was flushed |
| `TeamsEchoBot.ShowChannels` | experimental/teams/csharp-dotnetcore/TeamsEcho/Bots/TeamsEchoBot.cs:59-70 | sends the channel count header, then the channel lines in batches, stopping at a rejected send |
| `TeamsEchoBot.ShowMembers` | experimental/teams/csharp-dotnetcore/TeamsEcho/Bots/TeamsEchoBot.cs:72-81 | sends the member count header, then the member lines in batches, stopping at a rejected send |
| `TeamsEchoBot.ShowDetails` | experimental/teams/csharp-dotnetcore/TeamsEcho/Bots/TeamsEchoBot.cs:45-52 | sends the one team-details message |
| `TeamsEchoBot.OnMessageActivity` | experimental/teams/csharp-dotnetcore/TeamsEcho/Bots/TeamsEchoBot.cs:17-43 | the outbox becomes the delivery of `TurnReplies` (echo, then the selected command's replies); the activity text is mention-stripped in place unless the echo send was rejected |

## Left out

- The directory lookups `TeamsInfo.GetMembersAsync`, `GetChannelsAsync` and `GetTeamDetailsAsync` (TeamsEchoBot.cs:47, 56, 61) are external service calls. Their results are the `Directory` input. A lookup that throws, for example "show channels" outside a team, is not modelled.
- `RemoveRecipientMention` is SDK code and is taken as the parameter `removeMention`. `MessageFactory.Text` is taken as the identity.
- async/await and `CancellationToken` are not modelled. Sends are sequential appends to the outbox. A cancelled or failed send is a rejected send (`failAt`), and the handler stops at it because nothing catches the exception.
- Fields the directory reports as null, and a null incoming `Activity.Text`, are modelled as strings. String interpolation renders null as the empty string, so a null field or text corresponds to `""`: a null text is echoed as `"Echo: "` and, matching no case of the `switch` (TeamsEchoBot.cs:23), gets the help text, which is what the model gives for `""` when `removeMention` leaves it empty.
- `SendActivity`: the outbox holds the sends the transport acknowledged. A rejected send is modelled as delivering nothing, although a cancelled or timed-out send may already have reached the chat.
- `ShowDetails` sends `DetailsText`, which is written out. No property beyond "it is the one reply to show details" is proved about that HTML text.
- The one-argument `ShowMembersAsync` overload (TeamsEchoBot.cs:54-57) only fetches the roster and calls the two-argument overload. It is folded into `ShowMembers`, which takes the roster as input.
- Splitting a joined message back into lines is not modelled, because the joined text is lossy (`JoinLosesLineBoundaries`). The round trip is proved on batches.
- Counts are unbounded naturals. The source's `int` count cannot overflow for a real roster.
- The JavaScript echo template (generators/generator-botbuilder/generators/app/templates/echo/index.js) is not part of this model. It sets up the HTTP server, configuration, adapter, error logging and request routing.
- A general batch size is a parameter only of the batching lemmas. The source hard-codes ten, and so does the handler.
