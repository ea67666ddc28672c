/**
 * Turning the fetched Hipchat messages into Slack webhook payloads: link
 * preview messages are dropped, a heading line is put in front of a message
 * unless it continues the previous sender's recent messages, and a file
 * becomes a single image-style or file-style attachment.
 */
module Format {
  import opened Php
  import opened Rooms
  import opened History

  /** The Slack part of the configuration. */
  datatype SlackConfig = SlackConfig(webhookUrl: string, username: string, iconEmoji: string, channel: Option<string>)

  /** `{title, image_url, thumb_url}` for an image, `{title, title_link}` for any other file. */
  datatype Attachment =
    | ImageAttachment(title: string, imageUrl: string, thumbUrl: string)
    | FileAttachment(title: string, titleLink: string)

  /** The JSON body of one webhook call; no attachment means the key is absent. */
  datatype Payload = Payload(text: string, channel: Option<string>, username: string, iconEmoji: string, attachments: seq<Attachment>)

  /** What all payloads of one source room share. */
  datatype RoomContext = RoomContext(srcRoom: string, dstRoom: Option<string>, username: string, iconEmoji: string)

  /** The grouping state `($prevFrom, $prevTimestamp)`. */
  datatype Previous = Previous(from: string, timestamp: int)

  /** The grouping state at the start of every room. */
  const Start := Previous("", 0)

  /** The sender Hipchat uses for the extra message it creates per link. */
  const LinkSender := "Link"

  /** Messages from the same sender closer together than this many seconds share one heading. */
  const GroupingWindow := 300

  /** `strtotime($date) ?: 0`, with the date parser given as a function (None is PHP's false). */
  function Timestamp(strtotime: string -> Option<int>, date: string): int
  {
    match strtotime(date)
    case Some(t) => t
    case None => 0
  }

  /** A message starts a new group when its sender changes or it comes too long after the previous one. */
  predicate NeedsHeading(prev: Previous, from: string, timestamp: int)
  {
    from != prev.from || timestamp - prev.timestamp > GroupingWindow
  }

  /** The heading line and the blank line that follow it. */
  function Heading(srcRoom: string, from: string, date: string): string
  {
    "*[From Hipchat, " + srcRoom + ", " + from + ", " + date + "]*\n\n"
  }

  function AttachmentFor(f: File): Attachment
  {
    if IsTruthy(f.thumbUrl) then ImageAttachment(f.name, f.url, f.thumbUrl.value)
    else FileAttachment(f.name + " (" + DecimalString(f.size) + " B)", f.url)
  }

  /**
   * A file with a thumbnail becomes an image attachment carrying the file
   * name, its URL and the thumbnail URL; any other file becomes a link
   * titled with the file name, whose title ends with the size in bytes.
   */
  lemma AttachmentShape(f: File)
    ensures AttachmentFor(f).ImageAttachment? <==> IsTruthy(f.thumbUrl)
    ensures AttachmentFor(f).ImageAttachment? ==>
      AttachmentFor(f) == ImageAttachment(f.name, f.url, f.thumbUrl.value)
    ensures AttachmentFor(f).FileAttachment? ==>
      var title := AttachmentFor(f).title;
      && AttachmentFor(f).titleLink == f.url
      && |f.name| + 5 < |title|
      && title[..|f.name|] == f.name
      && title[|f.name|..|f.name| + 2] == " ("
      && title[|title| - 3..] == " B)"
      && (forall i :: |f.name| + 2 <= i < |title| - 3 ==> IsDigit(title[i]))
      && DecimalValue(title[|f.name| + 2..|title| - 3]) == f.size
  {
    if !IsTruthy(f.thumbUrl) {
      var title := AttachmentFor(f).title;
      var digits := DecimalString(f.size);
      assert title == f.name + " (" + digits + " B)";
      assert title[|f.name| + 2..|title| - 3] == digits;
      DecimalRoundTrip(f.size);
    }
  }

  /** The payload for one message, given the grouping state before it and its timestamp. */
  function PayloadFor(ctx: RoomContext, m: Message, prev: Previous, timestamp: int): Payload
  {
    var text := if NeedsHeading(prev, m.from, timestamp) then Heading(ctx.srcRoom, m.from, m.date) + m.text else m.text;
    var attachments := if m.file.Some? then [AttachmentFor(m.file.value)] else [];
    Payload(text, ctx.dstRoom, ctx.username, ctx.iconEmoji, attachments)
  }

  /** The payloads for the messages of one room, in order, starting from grouping state `prev`. */
  function FormatRoom(ctx: RoomContext, msgs: seq<Message>, prev: Previous, strtotime: string -> Option<int>): seq<Payload>
  {
    if msgs == [] then []
    else if msgs[0].from == LinkSender then FormatRoom(ctx, msgs[1..], prev, strtotime)
    else
      var timestamp := Timestamp(strtotime, msgs[0].date);
      [PayloadFor(ctx, msgs[0], prev, timestamp)] + FormatRoom(ctx, msgs[1..], Previous(msgs[0].from, timestamp), strtotime)
  }

  /**
   * Regrouping a concatenation of payload lists. Callers use it as a lemma
   * rather than an inline assert: it keeps the sequence terms out of their
   * proof context.
   */
  lemma ConcatAssoc(a: seq<Payload>, b: seq<Payload>, c: seq<Payload>)
    ensures (a + b) + c == a + (b + c)
  {
  }

  /** One step of FormatRoom on the messages from index j on. */
  lemma FormatRoomFrom(ctx: RoomContext, msgs: seq<Message>, j: nat, prev: Previous, strtotime: string -> Option<int>)
    requires j < |msgs|
    ensures FormatRoom(ctx, msgs[j..], prev, strtotime) ==
      if msgs[j].from == LinkSender then FormatRoom(ctx, msgs[j + 1..], prev, strtotime)
      else
        var timestamp := Timestamp(strtotime, msgs[j].date);
        [PayloadFor(ctx, msgs[j], prev, timestamp)] + FormatRoom(ctx, msgs[j + 1..], Previous(msgs[j].from, timestamp), strtotime)
  {
    assert msgs[j..][0] == msgs[j] && msgs[j..][1..] == msgs[j + 1..];
  }

  /** The messages that are relayed: all but the link previews, in order. */
  function NonLink(msgs: seq<Message>): (r: seq<Message>)
    ensures forall i :: 0 <= i < |r| ==> r[i].from != LinkSender
    ensures |r| <= |msgs|
  {
    if msgs == [] then []
    else if msgs[0].from == LinkSender then NonLink(msgs[1..])
    else [msgs[0]] + NonLink(msgs[1..])
  }

  /** Exactly the messages that are not from `Link` are relayed. */
  lemma {:induction false} NonLinkMembers(msgs: seq<Message>)
    ensures forall m :: m in NonLink(msgs) <==> m in msgs && m.from != LinkSender
  {
    if msgs != [] {
      NonLinkMembers(msgs[1..]);
      assert msgs == [msgs[0]] + msgs[1..];
    }
  }

  /**
   * `NonLink` is the in-order filter: it keeps or drops each message on its
   * own, and the kept messages of a concatenation are the kept messages of
   * its parts, in order and with their repetitions.
   */
  lemma {:induction false} NonLinkAppend(a: seq<Message>, b: seq<Message>)
    ensures NonLink(a + b) == NonLink(a) + NonLink(b)
    ensures forall m :: NonLink([m]) == if m.from == LinkSender then [] else [m]
  {
    if a != [] {
      assert (a + b)[0] == a[0] && (a + b)[1..] == a[1..] + b;
      NonLinkAppend(a[1..], b);
    } else {
      assert a + b == b;
    }
    forall m: Message ensures NonLink([m]) == if m.from == LinkSender then [] else [m] {
      assert [m][1..] == [];
    }
  }

  /** The grouping state in force when the j-th relayed message of `f` is formatted. */
  function PreviousBefore(f: seq<Message>, j: nat, prev: Previous, strtotime: string -> Option<int>): Previous
    requires j <= |f|
  {
    if j == 0 then prev else Previous(f[j - 1].from, Timestamp(strtotime, f[j - 1].date))
  }

  /** A room yields one payload per message that is not a link preview. */
  lemma {:induction false} FormatRoomCount(ctx: RoomContext, msgs: seq<Message>, prev: Previous, strtotime: string -> Option<int>)
    ensures |FormatRoom(ctx, msgs, prev, strtotime)| == |NonLink(msgs)|
  {
    if msgs != [] {
      if msgs[0].from == LinkSender {
        FormatRoomCount(ctx, msgs[1..], prev, strtotime);
      } else {
        FormatRoomCount(ctx, msgs[1..], Previous(msgs[0].from, Timestamp(strtotime, msgs[0].date)), strtotime);
      }
    }
  }

  /**
   * A link preview message leaves no trace: removing it changes neither the
   * payloads nor the grouping of the messages after it.
   */
  lemma {:induction false} LinkTransparent(ctx: RoomContext, a: seq<Message>, link: Message, b: seq<Message>,
                                           prev: Previous, strtotime: string -> Option<int>)
    requires link.from == LinkSender
    ensures FormatRoom(ctx, a + [link] + b, prev, strtotime) == FormatRoom(ctx, a + b, prev, strtotime)
  {
    if a == [] {
      assert (a + [link] + b)[1..] == b;
      assert a + b == b;
    } else {
      assert (a + [link] + b)[0] == a[0] && (a + b)[0] == a[0];
      assert (a + [link] + b)[1..] == a[1..] + [link] + b;
      assert (a + b)[1..] == a[1..] + b;
      if a[0].from == LinkSender {
        LinkTransparent(ctx, a[1..], link, b, prev, strtotime);
      } else {
        LinkTransparent(ctx, a[1..], link, b, Previous(a[0].from, Timestamp(strtotime, a[0].date)), strtotime);
      }
    }
  }

  /** The j-th payload of a room is PayloadFor the j-th relayed message and the grouping state before it. */
  lemma {:induction false} FormatRoomNth(ctx: RoomContext, msgs: seq<Message>, prev: Previous,
                                         strtotime: string -> Option<int>, j: nat)
    requires j < |NonLink(msgs)|
    ensures |FormatRoom(ctx, msgs, prev, strtotime)| == |NonLink(msgs)|
    ensures FormatRoom(ctx, msgs, prev, strtotime)[j] ==
      PayloadFor(ctx, NonLink(msgs)[j], PreviousBefore(NonLink(msgs), j, prev, strtotime),
                 Timestamp(strtotime, NonLink(msgs)[j].date))
  {
    FormatRoomCount(ctx, msgs, prev, strtotime);
    var f := NonLink(msgs);
    if msgs[0].from == LinkSender {
      FormatRoomNth(ctx, msgs[1..], prev, strtotime, j);
    } else {
      var next := Previous(msgs[0].from, Timestamp(strtotime, msgs[0].date));
      var rest := FormatRoom(ctx, msgs[1..], next, strtotime);
      assert f == [msgs[0]] + NonLink(msgs[1..]);
      assert FormatRoom(ctx, msgs, prev, strtotime) == [PayloadFor(ctx, msgs[0], prev, next.timestamp)] + rest;
      if j > 0 {
        FormatRoomNth(ctx, msgs[1..], next, strtotime, j - 1);
        assert f[j] == NonLink(msgs[1..])[j - 1];
        assert PreviousBefore(NonLink(msgs[1..]), j - 1, next, strtotime) == PreviousBefore(f, j, prev, strtotime);
      } else {
        assert f[0] == msgs[0] && PreviousBefore(f, 0, prev, strtotime) == prev;
      }
    }
  }

  /**
   * The j-th payload of a room is built from the j-th relayed message: its
   * text carries the heading exactly when the sender differs from the
   * previous relayed message's sender or the gap to that message's timestamp
   * exceeds the grouping window (the first one is compared with `prev`); it
   * goes to the room's channel with the configured username and icon, and it
   * has one attachment when the message has a file and none otherwise.
   */
  lemma FormatRoomAt(ctx: RoomContext, msgs: seq<Message>, prev: Previous,
                     strtotime: string -> Option<int>, j: nat)
    requires j < |NonLink(msgs)|
    ensures |FormatRoom(ctx, msgs, prev, strtotime)| == |NonLink(msgs)|
    ensures
      var m := NonLink(msgs)[j];
      var p := PreviousBefore(NonLink(msgs), j, prev, strtotime);
      FormatRoom(ctx, msgs, prev, strtotime)[j] == Payload(
        if NeedsHeading(p, m.from, Timestamp(strtotime, m.date))
        then Heading(ctx.srcRoom, m.from, m.date) + m.text
        else m.text,
        ctx.dstRoom, ctx.username, ctx.iconEmoji,
        if m.file.Some? then [AttachmentFor(m.file.value)] else [])
  {
    FormatRoomNth(ctx, msgs, prev, strtotime, j);
  }

  /**
   * Two relayed messages in a row: the second one carries a heading exactly
   * when its sender differs from the first one's or it comes more than the
   * grouping window after it.
   */
  lemma ConsecutiveHeading(ctx: RoomContext, a: Message, b: Message, prev: Previous, strtotime: string -> Option<int>)
    requires a.from != LinkSender && b.from != LinkSender
    ensures |FormatRoom(ctx, [a, b], prev, strtotime)| == 2
    ensures FormatRoom(ctx, [a, b], prev, strtotime)[1].text ==
      if b.from != a.from || Timestamp(strtotime, b.date) - Timestamp(strtotime, a.date) > GroupingWindow
      then Heading(ctx.srcRoom, b.from, b.date) + b.text
      else b.text
  {
    var ta := Timestamp(strtotime, a.date);
    assert [a, b][1..] == [b] && [b][1..] == [];
    assert FormatRoom(ctx, [a, b], prev, strtotime) ==
      [PayloadFor(ctx, a, prev, ta)] + FormatRoom(ctx, [b], Previous(a.from, ta), strtotime);
    assert FormatRoom(ctx, [b], Previous(a.from, ta), strtotime) ==
      [PayloadFor(ctx, b, Previous(a.from, ta), Timestamp(strtotime, b.date))];
  }

  /** `$rooms[$srcRoom]`: the destination channel of a room, null when the room is unknown. */
  function Channel(rooms: RoomMap, srcRoom: string): Option<string>
  {
    if srcRoom in rooms.channel then rooms.channel[srcRoom] else None
  }

  function ContextOf(slack: SlackConfig, rooms: RoomMap, srcRoom: string): RoomContext
  {
    RoomContext(srcRoom, Channel(rooms, srcRoom), slack.username, slack.iconEmoji)
  }

  /** Every payload of a run, room after room, each room starting from a fresh grouping state. */
  function Relayed(slack: SlackConfig, rooms: RoomMap, batches: seq<RoomMessages>, strtotime: string -> Option<int>): seq<Payload>
  {
    if batches == [] then []
    else
      FormatRoom(ContextOf(slack, rooms, batches[0].room), batches[0].messages, Start, strtotime)
      + Relayed(slack, rooms, batches[1..], strtotime)
  }

  /**
   * Rooms are formatted independently: relaying two lists of rooms one after
   * the other gives the payloads of the joined list, since the grouping
   * state never carries over from one room to the next.
   */
  lemma {:induction false} RelayedAppend(slack: SlackConfig, rooms: RoomMap, a: seq<RoomMessages>, b: seq<RoomMessages>,
                                         strtotime: string -> Option<int>)
    ensures Relayed(slack, rooms, a + b, strtotime) == Relayed(slack, rooms, a, strtotime) + Relayed(slack, rooms, b, strtotime)
  {
    if a == [] {
      assert a + b == b;
    } else {
      var first := FormatRoom(ContextOf(slack, rooms, a[0].room), a[0].messages, Start, strtotime);
      assert (a + b)[0] == a[0];
      assert (a + b)[1..] == a[1..] + b;
      assert Relayed(slack, rooms, a + b, strtotime) == first + Relayed(slack, rooms, a[1..] + b, strtotime);
      assert Relayed(slack, rooms, a, strtotime) == first + Relayed(slack, rooms, a[1..], strtotime);
      RelayedAppend(slack, rooms, a[1..], b, strtotime);
      ConcatAssoc(first, Relayed(slack, rooms, a[1..], strtotime), Relayed(slack, rooms, b, strtotime));
    }
  }
}
