/** The Teams echo bot's message handler: every incoming message is echoed, then the
    mention-stripped text selects one of three directory listings or the help text.
    Listings are sent as a header followed by the entries in batches of ten lines per
    message. */
module TeamsEchoBot {
  import opened Batching
  import opened Transport
  import opened Formatting

  /** What the mention-stripped text asks for. */
  datatype Command = Members | Channels | Details | Unknown

  /** The command a text selects: only an exact match of one of the three command
      texts selects a command; anything else gets the help text. */
  function ParseCommand(text: string): (c: Command)
    ensures c == Members <==> text == "show members"
    ensures c == Channels <==> text == "show channels"
    ensures c == Details <==> text == "show details"
  {
    if text == "show members" then Members
    else if text == "show channels" then Channels
    else if text == "show details" then Details
    else Unknown
  }

  /** What the directory service answers for the conversation of this turn. */
  datatype Directory = Directory(members: seq<TeamsChannelAccount>, channels: seq<ChannelInfo>, details: TeamDetails)

  /** The texts a channel listing sends when no send fails. */
  function ChannelsReplies(channels: seq<ChannelInfo>): (r: seq<string>)
  {
    [ChannelsHeader(|channels|)] + BatchMessages(ChannelLines(channels))
  }

  /** The texts a member listing sends when no send fails. */
  function MembersReplies(members: seq<TeamsChannelAccount>): (r: seq<string>)
  {
    [MembersHeader(|members|)] + BatchMessages(MemberLines(members))
  }

  /** The texts the command part of a turn sends when no send fails. */
  function CommandReplies(c: Command, dir: Directory): (r: seq<string>)
  {
    match c
    case Members => MembersReplies(dir.members)
    case Channels => ChannelsReplies(dir.channels)
    case Details => [DetailsText(dir.details)]
    case Unknown => [HelpText]
  }

  /** The texts a whole turn sends when no send fails: the echo of the text as it
      arrived, then the replies to the command its mention-stripped form selects. */
  function TurnReplies(text: string, removeMention: string -> string, dir: Directory): (r: seq<string>)
  {
    [EchoText(text)] + CommandReplies(ParseCommand(removeMention(text)), dir)
  }

  // ---------------------------------------------------------------------------
  // Properties of a turn

  /** A turn first echoes the incoming text and then sends exactly one of: the member
      listing, the channel listing, the team details or the help text, chosen only by
      whether the mention-stripped text is one of the three commands. */
  lemma TurnRepliesShape(text: string, removeMention: string -> string, dir: Directory)
    ensures var r := TurnReplies(text, removeMention, dir);
      var cmd := removeMention(text);
      && |r| >= 2
      && r[0] == "Echo: " + text
      && (cmd == "show members" ==> r[1..] == MembersReplies(dir.members))
      && (cmd == "show channels" ==> r[1..] == ChannelsReplies(dir.channels))
      && (cmd == "show details" ==> r[1..] == [DetailsText(dir.details)])
      && (cmd != "show members" && cmd != "show channels" && cmd != "show details" ==>
            r[1..] == [HelpText])
  {
    var r := TurnReplies(text, removeMention, dir);
    var c := ParseCommand(removeMention(text));
    assert r == [EchoText(text)] + CommandReplies(c, dir);
    assert r[1..] == CommandReplies(c, dir);
  }

  /** A listing of N entries is its "Total of N ..." header followed by one message
      per batch: 1 + ceil(N / 10) messages. */
  lemma {:induction false} ListingRepliesShape(members: seq<TeamsChannelAccount>, channels: seq<ChannelInfo>)
    ensures var r := MembersReplies(members);
      && |r| == 1 + (|members| + 9) / 10
      && r[0] == MembersHeader(|members|)
      && r[1..] == Render(Chunks(MemberLines(members), MaxBatchSize))
    ensures var r := ChannelsReplies(channels);
      && |r| == 1 + (|channels| + 9) / 10
      && r[0] == ChannelsHeader(|channels|)
      && r[1..] == Render(Chunks(ChannelLines(channels), MaxBatchSize))
  {
    ChunksCount(MemberLines(members), MaxBatchSize);
    ChunksCount(ChannelLines(channels), MaxBatchSize);
  }

  /** The batched part of a listing carries every entry line once, in directory
      order, at most ten to a message and never in an empty message. */
  lemma {:induction false} ListingKeepsEveryLine(lines: seq<string>)
    ensures var batches := Chunks(lines, MaxBatchSize);
      && Flatten(batches) == lines
      && (forall i :: 0 <= i < |batches| ==> 1 <= |batches[i]| <= 10)
      && (forall i :: 0 <= i < |batches| - 1 ==> |batches[i]| == 10)
      && BatchMessages(lines) == Render(batches)
  {
    ChunksFlatten(lines, MaxBatchSize);
    ChunksWellShaped(lines, MaxBatchSize);
  }

  // ---------------------------------------------------------------------------
  // Steps of the buffer-and-flush loop, one lemma per way a step can end

  /** The state between two steps of the loop: the lines before start have been
      flushed as full batches whose texts the transport all accepted, starting from
      the outbox o0, which now stands at sent. */
  ghost predicate FlushedUpTo(messages: seq<string>, start: nat, flushed: seq<seq<string>>,
                              o0: seq<string>, sent: seq<string>, failAt: Option<nat>)
  {
    && start <= |messages|
    && Flatten(flushed) == messages[..start]
    && (forall k :: 0 <= k < |flushed| ==> |flushed[k]| == MaxBatchSize)
    && Deliver(o0, Render(flushed), failAt) == Delivery(sent, true)
  }

  /** A full buffer whose send the transport accepts becomes one more flushed batch. */
  lemma FlushAccepted(messages: seq<string>, start: nat, flushed: seq<seq<string>>, batch: seq<string>,
                      o0: seq<string>, before: seq<string>, after: seq<string>, failAt: Option<nat>)
    requires FlushedUpTo(messages, start, flushed, o0, before, failAt)
    requires start + MaxBatchSize <= |messages| && batch == messages[start..start + MaxBatchSize]
    requires Deliver(before, [Join(Delimiter, batch)], failAt) == Delivery(after, true)
    ensures FlushedUpTo(messages, start + MaxBatchSize, flushed + [batch], o0, after, failAt)
  {
    var i := start + MaxBatchSize;
    FlattenSnoc(flushed, batch);
    assert messages[..i] == messages[..start] + messages[start..i];
    RenderSnoc(flushed, batch);
    DeliverStep(o0, Render(flushed), Join(Delimiter, batch), before, failAt);
    assert forall k :: 0 <= k < |flushed| ==> (flushed + [batch])[k] == flushed[k];
  }

  /** A full buffer whose send the transport rejects ends the listing: what was
      delivered is what a run of all the listing's messages delivers. */
  lemma FlushRejected(messages: seq<string>, start: nat, flushed: seq<seq<string>>, batch: seq<string>,
                      o0: seq<string>, before: seq<string>, failAt: Option<nat>)
    requires FlushedUpTo(messages, start, flushed, o0, before, failAt)
    requires start + MaxBatchSize <= |messages| && batch == messages[start..start + MaxBatchSize]
    requires Deliver(before, [Join(Delimiter, batch)], failAt) == Delivery(before, false)
    ensures Deliver(o0, BatchMessages(messages), failAt) == Delivery(before, false)
  {
    var i := start + MaxBatchSize;
    var rest := Chunks(messages[i..], MaxBatchSize);
    FlattenSnoc(flushed, batch);
    assert messages[..i] == messages[..start] + messages[start..i];
    assert forall k :: 0 <= k < |flushed| ==> (flushed + [batch])[k] == flushed[k];
    ChunksAfterFullBatches(messages, MaxBatchSize, flushed + [batch], i);
    assert (flushed + [batch]) + rest == flushed + ([batch] + rest);
    RenderAppend(flushed, [batch] + rest);
    RenderAppend([batch], rest);
    DeliverAppend(o0, Render(flushed), Render([batch] + rest), failAt);
    DeliverStopped(before, [Join(Delimiter, batch)], Render(rest), before, failAt);
  }

  /** When the input is exhausted, the listing still owes exactly the buffer, as one
      last message if it is not empty. */
  lemma FinalFlush(messages: seq<string>, start: nat, flushed: seq<seq<string>>, batch: seq<string>,
                   o0: seq<string>, sent: seq<string>, failAt: Option<nat>)
    requires FlushedUpTo(messages, start, flushed, o0, sent, failAt)
    requires |messages| - start < MaxBatchSize && batch == messages[start..]
    ensures |batch| > 0 ==>
      Deliver(o0, BatchMessages(messages), failAt) == Deliver(sent, [Join(Delimiter, batch)], failAt)
    ensures |batch| == 0 ==> Deliver(o0, BatchMessages(messages), failAt) == Delivery(sent, true)
  {
    ChunksAfterFullBatches(messages, MaxBatchSize, flushed, start);
    if |batch| > 0 {
      assert Chunks(batch, MaxBatchSize) == [batch];
      RenderSnoc(flushed, batch);
      DeliverStep(o0, Render(flushed), Join(Delimiter, batch), sent, failAt);
    } else {
      assert Chunks(batch, MaxBatchSize) == [];
      assert flushed + [] == flushed;
    }
  }

  // ---------------------------------------------------------------------------
  // The handler

  /** Send the lines in order, ten to a message joined with "<br>", flushing whatever
      is left over as one last message; a rejected send stops the listing. */
  method SendInBatches(ctx: TurnContext, messages: seq<string>) returns (ok: bool)
    modifies ctx`outbox
    ensures Delivery(ctx.outbox, ok) == Deliver(old(ctx.outbox), BatchMessages(messages), ctx.failAt)
  {
    var batch: seq<string> := [];
    ghost var flushed: seq<seq<string>> := [];
    ghost var start := 0;
    var i := 0;
    while i < |messages|
      invariant start <= i <= |messages| && i - start < MaxBatchSize
      invariant batch == messages[start..i]
      invariant FlushedUpTo(messages, start, flushed, old(ctx.outbox), ctx.outbox, ctx.failAt)
    {
      assert messages[start..i + 1] == messages[start..i] + [messages[i]];
      batch := batch + [messages[i]];
      i := i + 1;
      if |batch| == MaxBatchSize {
        ghost var before := ctx.outbox;
        ok := ctx.SendActivity(Join(Delimiter, batch));
        if !ok {
          FlushRejected(messages, start, flushed, batch, old(ctx.outbox), before, ctx.failAt);
          return;
        }
        FlushAccepted(messages, start, flushed, batch, old(ctx.outbox), before, ctx.outbox, ctx.failAt);
        flushed := flushed + [batch];
        batch := [];
        start := i;
      }
    }
    FinalFlush(messages, start, flushed, batch, old(ctx.outbox), ctx.outbox, ctx.failAt);
    ok := true;
    if |batch| > 0 {
      ok := ctx.SendActivity(Join(Delimiter, batch));
    }
  }

  /** Send the channel count header, then the channel lines in batches. */
  method ShowChannels(ctx: TurnContext, channels: seq<ChannelInfo>) returns (ok: bool)
    modifies ctx`outbox
    ensures Delivery(ctx.outbox, ok) == Deliver(old(ctx.outbox), ChannelsReplies(channels), ctx.failAt)
  {
    DeliverAppend(ctx.outbox, [ChannelsHeader(|channels|)], BatchMessages(ChannelLines(channels)), ctx.failAt);
    ok := ctx.SendActivity(ChannelsHeader(|channels|));
    if !ok {
      return;
    }
    ok := SendInBatches(ctx, ChannelLines(channels));
  }

  /** Send the member count header, then the member lines in batches. */
  method ShowMembers(ctx: TurnContext, members: seq<TeamsChannelAccount>) returns (ok: bool)
    modifies ctx`outbox
    ensures Delivery(ctx.outbox, ok) == Deliver(old(ctx.outbox), MembersReplies(members), ctx.failAt)
  {
    DeliverAppend(ctx.outbox, [MembersHeader(|members|)], BatchMessages(MemberLines(members)), ctx.failAt);
    ok := ctx.SendActivity(MembersHeader(|members|));
    if !ok {
      return;
    }
    ok := SendInBatches(ctx, MemberLines(members));
  }

  /** Send the one-message team details reply. */
  method ShowDetails(ctx: TurnContext, details: TeamDetails) returns (ok: bool)
    modifies ctx`outbox
    ensures Delivery(ctx.outbox, ok) == Deliver(old(ctx.outbox), [DetailsText(details)], ctx.failAt)
  {
    ok := ctx.SendActivity(DetailsText(details));
  }

  /** Handle one incoming message: echo it, strip the mention of the bot from the
      activity's text in place, and answer the command it then holds. A rejected send
      ends the turn; a rejected echo ends it before the mention is stripped. */
  method OnMessageActivity(ctx: TurnContext, removeMention: string -> string, dir: Directory) returns (ok: bool)
    modifies ctx
    ensures ctx.activityText ==
      if ctx.failAt == Some(|old(ctx.outbox)|) then old(ctx.activityText)
      else removeMention(old(ctx.activityText))
    ensures Delivery(ctx.outbox, ok) ==
      Deliver(old(ctx.outbox), TurnReplies(old(ctx.activityText), removeMention, dir), ctx.failAt)
  {
    var text := ctx.activityText;
    ghost var command := ParseCommand(removeMention(text));
    DeliverAppend(ctx.outbox, [EchoText(text)], CommandReplies(command, dir), ctx.failAt);
    ok := ctx.SendActivity(EchoText(text));
    if !ok {
      return;
    }
    ctx.activityText := removeMention(ctx.activityText);
    match ParseCommand(ctx.activityText)
    case Members =>
      ok := ShowMembers(ctx, dir.members);
    case Channels =>
      ok := ShowChannels(ctx, dir.channels);
    case Details =>
      ok := ShowDetails(ctx, dir.details);
    case Unknown =>
      ok := ctx.SendActivity(HelpText);
  }
}
