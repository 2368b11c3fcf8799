// confirmPub.publish of internal/queryjob/publisher.go over one AMQP channel in
// confirm mode: why a publish that reports success did enter the queue, and why
// one that reports an error may have.
module Publisher {
  import opened Options

  type Tag = nat  // delivery tag

  // What the broker sends back, in order. In confirm mode a mandatory message that
  // cannot be routed is returned before it is acknowledged.
  datatype Frame = Return(tag: Tag) | BrokerAck(tag: Tag) | BrokerNack(tag: Tag)

  datatype Decision = Route | Unroutable | Refuse

  datatype PublishError = Returned | Nacked | ConfirmTimeout | Cancelled

  class ConfirmPub {
    var nextTag: Tag
    var unread: set<Tag>             // published, not yet handled by the broker
    var entered: set<Tag>            // taken into the queue
    var frames: seq<Frame>           // on their way to the client
    var returned: seq<Tag>            // the client's return channel, which holds one
    var confirmed: map<Tag, bool>    // resolved deferred confirmations
    ghost var read: seq<Tag>         // returns that some publish has read

    predicate Announced(t: Tag, k: nat)
      reads this
      requires k <= |frames|
    {
      t in returned || Return(t) in frames[..k]
    }

    ghost predicate Valid() reads this {
      && |returned| <= 1
      && (forall t :: t in unread ==> t < nextTag && t !in entered)
      && (forall t :: t in read || t in entered || t in confirmed || t in returned ==> t < nextTag)
      && (forall i :: 0 <= i < |frames| ==> frames[i].tag < nextTag && frames[i].tag !in unread)
      && (forall t :: t in confirmed ==> t !in unread)
      // an acknowledged message that did not enter was announced as returned before
      && (forall i :: 0 <= i < |frames| && frames[i].BrokerAck? ==>
            frames[i].tag in entered || frames[i].tag in read || Announced(frames[i].tag, i))
      && (forall t :: t in confirmed && confirmed[t] ==> t in entered || t in read || t in returned)
      // a refused message never entered
      && (forall i :: 0 <= i < |frames| && frames[i].BrokerNack? ==> frames[i].tag !in entered)
      && (forall t :: t in confirmed && !confirmed[t] ==> t !in entered)
    }

    constructor ()
      ensures Valid() && entered == {}
    {
      nextTag, unread, entered, frames, returned, confirmed, read := 0, {}, {}, [], [], map[], [];
    }

    // The broker handles one message.
    method BrokerStep(t: Tag, decision: Decision)
      requires Valid() && t in unread
      modifies this`unread, this`entered, this`frames
      ensures Valid() && old(entered) <= entered
    {
      unread := unread - {t};
      ghost var was := frames;
      match decision {
        case Route =>
          entered := entered + {t};
          frames := frames + [BrokerAck(t)];
        case Unroutable =>
          frames := frames + [Return(t), BrokerAck(t)];
          assert frames[|was|] in frames[..|was| + 1];
        case Refuse =>
          frames := frames + [BrokerNack(t)];
      }
      assert forall i :: 0 <= i <= |was| ==> frames[..i] == was[..i];
    }

    // The client library reads one frame; a full return channel makes it wait.
    method ClientStep()
      requires Valid() && frames != []
      modifies this`frames, this`returned, this`confirmed
      ensures Valid()
    {
      if frames[0].Return? && returned != [] {
        return;
      }
      ghost var was := frames;
      match frames[0] {
        case Return(t) => returned := [t];
        case BrokerAck(t) => confirmed := confirmed[t := true];
        case BrokerNack(t) => confirmed := confirmed[t := false];
      }
      frames := frames[1..];
      forall i | 0 <= i < |frames| && frames[i].BrokerAck?
        ensures frames[i].tag in entered || frames[i].tag in read || Announced(frames[i].tag, i)
      {
        assert was[i + 1] == frames[i];
        assert was[..i + 1] == [was[0]] + frames[..i];
      }
    }

    // Whatever happens while publish waits in its select.
    method Wait()
      requires Valid()
      modifies this`unread, this`entered, this`frames, this`returned, this`confirmed
      ensures Valid() && old(entered) <= entered
    {
      var steps: int :| steps >= 0;
      for n := 0 to steps
        invariant Valid() && old(entered) <= entered
      {
        var broker: bool := *;
        if broker && unread != {} {
          var t :| t in unread;
          var decision := *;
          BrokerStep(t, decision);
        } else if frames != [] {
          ClientStep();
        }
      }
    }

    // A receive from the return channel.
    method TakeReturn()
      requires Valid() && returned != []
      modifies this`returned, this`read
      ensures Valid() && returned == [] && read == old(read) + old(returned)
    {
      read, returned := read + returned, [];
    }

    // publish: None is success. Success means the message entered the queue, a broker NACK
    // that it did not; after the other errors it may or may not have, now or later.
    method Publish(cancelled: bool) returns (t: Tag, err: Option<PublishError>)
      requires Valid()
      modifies this
      ensures Valid() && t == old(nextTag)
      ensures err == None ==> t in entered
      ensures err == Some(Nacked) ==> t !in entered
      ensures err == Some(Cancelled) ==> cancelled
      ensures err == Some(Cancelled) || err == Some(ConfirmTimeout) ==> t !in confirmed
      ensures err == Some(Returned) <==> |read| > |old(read)|
      ensures err == None || err == Some(Nacked) ==> t in confirmed && confirmed[t] == err.None?
    {
      t := nextTag;
      nextTag, unread := nextTag + 1, unread + {t};
      Wait();
      var pick: bool := *;
      if pick && returned != [] {
        TakeReturn();
        return t, Some(Returned);
      }
      if t !in confirmed {
        // the timer or the context fires
        return t, Some(if cancelled then Cancelled else ConfirmTimeout);
      }
      if !confirmed[t] {
        return t, Some(Nacked);
      }
      // drain a simultaneous return
      if returned != [] {
        TakeReturn();
        return t, Some(Returned);
      }
      err := None;
    }
  }
}
