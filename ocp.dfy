/**
 * Notification dispatch before and after the open/closed refactoring: a
 * ladder over a channel name inside one `send`, then one class per channel
 * and a service that runs a list of channel objects.
 */
module OpenClosed {
  import opened Records

  /** The four channel classes; none has state, so each is a plain value. */
  datatype Channel = EmailNotification | SMSNotification | PushNotification | WhatsAppNotification

  /** A channel class's `send`: one line, on the channel's own contact field, with the message unchanged. */
  function Send(channel: Channel, user: Contact, message: string): (e: Event)
    ensures e.Notified? && e.message == Text(message)
    ensures e.to in {user.email, user.phone, user.deviceId}
  {
    match channel
    case EmailNotification => Notified("Email", user.email, Text(message))
    case SMSNotification => Notified("SMS", user.phone, Text(message))
    case PushNotification => Notified("Push", user.deviceId, Text(message))
    case WhatsAppNotification => Notified("WhatsApp", user.phone, Text(message))
  }

  /** Which contact field each channel class addresses. */
  lemma ChannelFields(user: Contact, message: string)
    ensures Send(EmailNotification, user, message).to == user.email
    ensures Send(SMSNotification, user, message).to == user.phone
    ensures Send(PushNotification, user, message).to == user.deviceId
    ensures Send(WhatsAppNotification, user, message).to == user.phone
  {
  }

  /** The channel names the ladder tests, with the class that replaced each branch. */
  const LadderClasses: map<string, Channel> := map[
    "email" := EmailNotification,
    "sms"   := SMSNotification,
    "push"  := PushNotification
  ]

  /**
   * `NotificationServiceBad.send`: exactly the line of the matching class for
   * the three names the ladder tests, and nothing at all, without an error,
   * for any other name.
   */
  function SendBad(kind: string, user: Contact, message: string): (r: seq<Event>)
    ensures kind in LadderClasses ==> r == [Send(LadderClasses[kind], user, message)]
    ensures kind !in LadderClasses ==> r == []
  {
    if kind == "email" then
      [Notified("Email", user.email, Text(message))]
    else if kind == "sms" then
      [Notified("SMS", user.phone, Text(message))]
    else if kind == "push" then
      [Notified("Push", user.deviceId, Text(message))]
    else
      []
  }

  /**
   * The ladder has no WhatsApp branch, although the WhatsApp class exists. A
   * corollary of `SendBad`'s contract for a name outside `LadderClasses`.
   */
  lemma LadderIgnoresWhatsApp(user: Contact, message: string)
    ensures SendBad("whatsapp", user, message) == []
    ensures Send(WhatsAppNotification, user, message).Notified?
  {
    assert "whatsapp" !in LadderClasses;
  }

  /**
   * `NotificationService.sendAll`: each channel's `send` exactly once, in
   * list order, with the same user and message.
   */
  method SendAll(channels: seq<Channel>, user: Contact, message: string) returns (events: seq<Event>)
    ensures |events| == |channels|
    ensures forall i :: 0 <= i < |channels| ==> events[i] == Send(channels[i], user, message)
  {
    events := [];
    for i := 0 to |channels|
      invariant |events| == i
      invariant forall j :: 0 <= j < i ==> events[j] == Send(channels[j], user, message)
    {
      events := events + [Send(channels[i], user, message)];
    }
  }

  /**
   * For each name the ladder tests, running the list holding only the
   * matching class prints what the ladder prints.
   */
  method SendAllMatchesLadder(kind: string, user: Contact, message: string) returns (events: seq<Event>)
    requires kind in LadderClasses
    ensures events == SendBad(kind, user, message)
  {
    events := SendAll([LadderClasses[kind]], user, message);
  }
}
