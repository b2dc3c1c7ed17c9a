/** The outbound side of one conversation turn: the turn context through which the
    bot sends activities, and the meaning of a run of sends when the transport can
    reject one. A rejected send raises an exception that nothing in the bot catches,
    so no further send of that turn happens. */
module Transport {

  datatype Option<T> = None | Some(value: T)

  /** The texts delivered so far and whether every send attempted succeeded. */
  datatype Delivery = Delivery(sent: seq<string>, ok: bool)

  /** Sending texts one after another into an outbox that already holds sent, when
      the transport rejects the send that would make the outbox's entry number
      failAt (counting from 0). A rejected send delivers nothing and stops the run. */
  function Deliver(sent: seq<string>, texts: seq<string>, failAt: Option<nat>): (d: Delivery)
    decreases |texts|
  {
    if |texts| == 0 then Delivery(sent, true)
    else if failAt == Some(|sent|) then Delivery(sent, false)
    else Deliver(sent + [texts[0]], texts[1..], failAt)
  }

  /** Closed form of a run of sends: if the rejected position falls among the new
      texts, exactly the texts before it are delivered and the run reports failure;
      otherwise all texts are delivered in order. */
  lemma {:induction false} DeliverClosedForm(sent: seq<string>, texts: seq<string>, failAt: Option<nat>)
    ensures Deliver(sent, texts, failAt) ==
      if failAt.Some? && |sent| <= failAt.value < |sent| + |texts|
      then Delivery((sent + texts)[..failAt.value], false)
      else Delivery(sent + texts, true)
    decreases |texts|
  {
    if |texts| > 0 && failAt != Some(|sent|) {
      DeliverClosedForm(sent + [texts[0]], texts[1..], failAt);
      assert (sent + [texts[0]]) + texts[1..] == sent + texts;
    } else if |texts| > 0 {
      assert (sent + texts)[..failAt.value] == sent;
    }
  }

  /** Sending a then b is sending a, and, only if all of a went through, then b. */
  lemma {:induction false} DeliverAppend(sent: seq<string>, a: seq<string>, b: seq<string>, failAt: Option<nat>)
    ensures Deliver(sent, a + b, failAt) ==
      var d := Deliver(sent, a, failAt);
      if d.ok then Deliver(d.sent, b, failAt) else d
    decreases |a|
  {
    if |a| > 0 {
      assert (a + b)[0] == a[0];
      assert (a + b)[1..] == a[1..] + b;
      if failAt != Some(|sent|) {
        DeliverAppend(sent + [a[0]], a[1..], b, failAt);
      }
    } else {
      assert a + b == b;
    }
  }

  /** One more send after a run in which every send went through. */
  lemma DeliverStep(start: seq<string>, done: seq<string>, text: string, sent: seq<string>, failAt: Option<nat>)
    requires Deliver(start, done, failAt) == Delivery(sent, true)
    ensures Deliver(start, done + [text], failAt) == Deliver(sent, [text], failAt)
  {
    DeliverAppend(start, done, [text], failAt);
  }

  /** After a rejected send, nothing more is delivered, whatever else was to be sent. */
  lemma DeliverStopped(start: seq<string>, done: seq<string>, rest: seq<string>, sent: seq<string>, failAt: Option<nat>)
    requires Deliver(start, done, failAt) == Delivery(sent, false)
    ensures Deliver(start, done + rest, failAt) == Delivery(sent, false)
  {
    DeliverAppend(start, done, rest, failAt);
  }

  /** Whatever happens, the delivered texts extend the outbox by a prefix of the
      texts, and failure means the outbox reached the rejected position. */
  lemma DeliverPrefix(sent: seq<string>, texts: seq<string>, failAt: Option<nat>)
    ensures var d := Deliver(sent, texts, failAt);
      && sent <= d.sent <= sent + texts
      && (d.ok <==> d.sent == sent + texts)
      && (!d.ok ==> failAt == Some(|d.sent|))
  {
    DeliverClosedForm(sent, texts, failAt);
  }

  /** The turn context of one incoming message: the text of the activity being
      handled, and the outbox of everything sent back in this turn. */
  class TurnContext {
    /** The incoming activity's text; the mention of the bot can be stripped from it in place. */
    var activityText: string
    /** Every activity text delivered so far, in send order. */
    var outbox: seq<string>
    /** The outbox position whose send the transport rejects, if any. */
    const failAt: Option<nat>

    constructor (text: string, failAt: Option<nat>)
      ensures activityText == text && outbox == [] && this.failAt == failAt
    {
      activityText := text;
      outbox := [];
      this.failAt := failAt;
    }

    /** Send one message activity: it is appended to the outbox unless the transport
        rejects it, in which case nothing is delivered and ok is false. */
    method SendActivity(text: string) returns (ok: bool)
      modifies this`outbox
      ensures Delivery(outbox, ok) == Deliver(old(outbox), [text], failAt)
    {
      ok := failAt != Some(|outbox|);
      if ok {
        outbox := outbox + [text];
      }
    }
  }
}
