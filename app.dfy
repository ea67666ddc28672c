/**
 * The relay application: the constructor normalises the configured rooms,
 * `GetMessages` fetches every room's new messages and advances the cursor
 * file, `Post` formats and sends them to the Slack webhook, and `Run` does
 * the two in sequence.
 *
 * The Hipchat history service, the cursor file and the webhook are not
 * called: a history answer per room, the decoded cursor dictionary and the
 * date parser come in as arguments, and the requests made, the cursor
 * dictionary to encode and the payloads to send come out as results.
 */
module App {
  import opened Php
  import opened Rooms
  import opened History
  import opened Format

  /** The Hipchat part of the configuration. */
  datatype HipchatConfig = HipchatConfig(token: string, timezone: string)

  datatype Config = Config(hipchat: HipchatConfig, slack: SlackConfig, rooms: seq<RoomEntry>, lastMessageIdsFile: string)

  /** The requests made and the messages kept for the first `n` rooms of `order`. */
  ghost predicate FetchedPrefix(timezone: string, order: seq<string>, cursors: map<string, string>,
                                history: seq<seq<Message>>, n: nat, queries: seq<HistoryQuery>, result: seq<RoomMessages>)
    requires |history| == |order| && n <= |order|
  {
    && |queries| == n && |result| == n
    && (forall j :: 0 <= j < n ==> queries[j] == HistoryQuery(order[j], timezone, NotBefore(cursors, order[j])))
    && (forall j :: 0 <= j < n ==> result[j] == Fetched(order, cursors, history)[j])
  }

  /** One turn of the fetch loop extends the requests and the kept messages by the next room. */
  lemma FetchStep(timezone: string, order: seq<string>, cursors: map<string, string>, history: seq<seq<Message>>,
                  n: nat, queries: seq<HistoryQuery>, result: seq<RoomMessages>, ids: map<string, string>,
                  query: HistoryQuery, messages: seq<Message>, newIds: map<string, string>)
    requires |history| == |order| && n < |order|
    requires forall p, q :: 0 <= p < q < |order| ==> order[p] != order[q]
    requires FetchedPrefix(timezone, order, cursors, history, n, queries, result)
    requires ids == Advance(order, cursors, history, n)
    requires query == HistoryQuery(order[n], timezone, if IsTruthy(Lookup(ids, order[n])) then Lookup(ids, order[n]) else None)
    requires messages == if history[n] != [] && IsTruthy(Lookup(ids, order[n])) then history[n][1..] else history[n]
    requires newIds == if history[n] != [] then ids[order[n] := history[n][|history[n]| - 1].id] else ids
    ensures FetchedPrefix(timezone, order, cursors, history, n + 1, queries + [query],
                          result + [RoomMessages(order[n], messages)])
    ensures newIds == Advance(order, cursors, history, n + 1)
  {
    var room := order[n];
    assert SameCursor(cursors, ids, room) by {
      assert room !in order[..n];
      AdvanceKeeps(order, cursors, history, n, room);
    }
    assert Lookup(ids, room) == Lookup(cursors, room);
    var queries', result' := queries + [query], result + [RoomMessages(room, messages)];
    forall j | 0 <= j < n + 1
      ensures queries'[j] == HistoryQuery(order[j], timezone, NotBefore(cursors, order[j]))
      ensures result'[j] == Fetched(order, cursors, history)[j]
    {
      if j < n {
        assert queries'[j] == queries[j] && result'[j] == result[j];
      }
    }
  }

  /** When every room has been handled, the kept messages are exactly what Fetched describes. */
  lemma FetchedComplete(timezone: string, order: seq<string>, cursors: map<string, string>,
                        history: seq<seq<Message>>, queries: seq<HistoryQuery>, result: seq<RoomMessages>)
    requires |history| == |order|
    requires FetchedPrefix(timezone, order, cursors, history, |order|, queries, result)
    ensures |queries| == |order|
    ensures forall i :: 0 <= i < |order| ==> queries[i] == HistoryQuery(order[i], timezone, NotBefore(cursors, order[i]))
    ensures result == Fetched(order, cursors, history)
  {
  }

  /**
   * Two runs on the room "General": the first has no stored cursor and the
   * history answers with the messages "10" and "11", so both are relayed and
   * the cursor becomes "11"; the second sends "11" as `not-before`, the
   * history answers with "11" and "12", and only "12" is relayed while the
   * cursor becomes "12".
   */
  lemma TwoRunScenario(slack: SlackConfig, rooms: RoomMap, m10: Message, m11: Message, m12: Message,
                       strtotime: string -> Option<int>)
    requires m10.id == "10" && m11.id == "11" && m12.id == "12"
    requires m10.from != LinkSender && m11.from != LinkSender && m12.from != LinkSender
    ensures var first := Fetched(["General"], map[], [[m10, m11]]);
      && first == [RoomMessages("General", [m10, m11])]
      && |Relayed(slack, rooms, first, strtotime)| == 2
      && Advance(["General"], map[], [[m10, m11]], 1) == map["General" := "11"]
    ensures var cursors := map["General" := "11"];
      var second := Fetched(["General"], cursors, [[m11, m12]]);
      && NotBefore(cursors, "General") == Some("11")
      && second == [RoomMessages("General", [m12])]
      && |Relayed(slack, rooms, second, strtotime)| == 1
      && Advance(["General"], cursors, [[m11, m12]], 1) == map["General" := "12"]
  {
    FirstRun(slack, rooms, m10, m11, strtotime);
    SecondRun(slack, rooms, m11, m12, strtotime);
  }

  /** The first run of `TwoRunScenario`: no cursor yet. */
  lemma FirstRun(slack: SlackConfig, rooms: RoomMap, m10: Message, m11: Message, strtotime: string -> Option<int>)
    requires m11.id == "11"
    requires m10.from != LinkSender && m11.from != LinkSender
    ensures var first := Fetched(["General"], map[], [[m10, m11]]);
      && first == [RoomMessages("General", [m10, m11])]
      && |Relayed(slack, rooms, first, strtotime)| == 2
      && Advance(["General"], map[], [[m10, m11]], 1) == map["General" := "11"]
  {
    var ctx := ContextOf(slack, rooms, "General");
    var first := Fetched(["General"], map[], [[m10, m11]]);
    assert first == [RoomMessages("General", [m10, m11])];
    FormatRoomCount(ctx, [m10, m11], Start, strtotime);
    assert NonLink([m10, m11]) == [m10, m11] by {
      assert [m10, m11][1..] == [m11];
    }
    assert Relayed(slack, rooms, first, strtotime) == FormatRoom(ctx, [m10, m11], Start, strtotime);
  }

  /** The second run of `TwoRunScenario`: the cursor "11" is sent and its message dropped. */
  lemma SecondRun(slack: SlackConfig, rooms: RoomMap, m11: Message, m12: Message, strtotime: string -> Option<int>)
    requires m12.id == "12"
    requires m12.from != LinkSender
    ensures var cursors := map["General" := "11"];
      var second := Fetched(["General"], cursors, [[m11, m12]]);
      && NotBefore(cursors, "General") == Some("11")
      && second == [RoomMessages("General", [m12])]
      && |Relayed(slack, rooms, second, strtotime)| == 1
      && Advance(["General"], cursors, [[m11, m12]], 1) == map["General" := "12"]
  {
    var ctx := ContextOf(slack, rooms, "General");
    var cursors := map["General" := "11"];
    assert HasCursor(cursors, "General");
    var second := Fetched(["General"], cursors, [[m11, m12]]);
    assert [m11, m12][1..] == [m12];
    assert second == [RoomMessages("General", [m12])];
    FormatRoomCount(ctx, [m12], Start, strtotime);
    assert Relayed(slack, rooms, second, strtotime) == FormatRoom(ctx, [m12], Start, strtotime);
  }

  class Application {
    const rooms: RoomMap
    const srcConfig: HipchatConfig
    const dstConfig: SlackConfig
    const lastMessageIdsFile: string

    /** Stores the configuration and normalises the room list entry by entry. */
    constructor (config: Config)
      ensures rooms == Normalized(config.rooms, config.slack.channel)
      ensures srcConfig == config.hipchat && dstConfig == config.slack
      ensures lastMessageIdsFile == config.lastMessageIdsFile
    {
      srcConfig := config.hipchat;
      dstConfig := config.slack;

      var normalized := RoomMap([], map[]);
      var defaultDstChannel := config.slack.channel;
      for i := 0 to |config.rooms|
        invariant normalized == Normalized(config.rooms[..i], defaultDstChannel)
      {
        var entry := config.rooms[i];
        var srcRoom, dstRoom;
        if IsBare(entry.key) {
          srcRoom := if entry.value.Some? then entry.value.value else "";
          dstRoom := defaultDstChannel;
        } else {
          srcRoom, dstRoom := entry.key.s, entry.value;
        }
        assert srcRoom == SourceRoom(entry) && Elvis(dstRoom, defaultDstChannel) == Destination(entry, defaultDstChannel);
        NormalizedStep(config.rooms, defaultDstChannel, i);
        normalized := Put(normalized, srcRoom, Elvis(dstRoom, defaultDstChannel));
      }
      assert config.rooms[..|config.rooms|] == config.rooms;
      rooms := normalized;

      lastMessageIdsFile := config.lastMessageIdsFile;
    }

    /**
     * Fetches the rooms in order. For each room it sends the stored cursor as
     * `not-before` when the cursor is truthy, takes `history[i]` as the
     * answer, records the answer's last id as the room's cursor, and drops
     * the answer's first message when a cursor was sent.
     */
    static method GetMessages(config: HipchatConfig, rooms: RoomMap, cursors: map<string, string>,
                              history: seq<seq<Message>>)
      returns (queries: seq<HistoryQuery>, result: seq<RoomMessages>, lastMessageIds: map<string, string>)
      requires rooms.Valid()
      requires |history| == |rooms.order|
      ensures |queries| == |rooms.order|
      ensures forall i :: 0 <= i < |rooms.order| ==>
        queries[i] == HistoryQuery(rooms.order[i], config.timezone, NotBefore(cursors, rooms.order[i]))
      ensures result == Fetched(rooms.order, cursors, history)
      ensures lastMessageIds == Advance(rooms.order, cursors, history, |rooms.order|)
      ensures Advanced(rooms.order, cursors, history, lastMessageIds)
    {
      queries, result := [], [];
      lastMessageIds := cursors;
      for i := 0 to |rooms.order|
        invariant FetchedPrefix(config.timezone, rooms.order, cursors, history, i, queries, result)
        invariant lastMessageIds == Advance(rooms.order, cursors, history, i)
      {
        var srcRoom := rooms.order[i];
        var notBefore := None;
        var lastMessageId := Lookup(lastMessageIds, srcRoom);
        if IsTruthy(lastMessageId) {
          notBefore := lastMessageId;
        }
        var query := HistoryQuery(srcRoom, config.timezone, notBefore);

        var messages := history[i];
        var newIds := lastMessageIds;
        if messages != [] {
          newIds := newIds[srcRoom := messages[|messages| - 1].id];
          if IsTruthy(lastMessageId) {
            messages := messages[1..];
          }
        }
        FetchStep(config.timezone, rooms.order, cursors, history, i, queries, result, lastMessageIds,
                  query, messages, newIds);
        queries, result, lastMessageIds := queries + [query], result + [RoomMessages(srcRoom, messages)], newIds;
      }
      FetchedComplete(config.timezone, rooms.order, cursors, history, queries, result);
      AdvanceAll(rooms.order, cursors, history);
    }

    /**
     * Formats every fetched message in order, room by room, and sends one
     * payload per message; each room starts from a fresh grouping state.
     */
    static method Post(config: SlackConfig, rooms: RoomMap, messages: seq<RoomMessages>,
                       strtotime: string -> Option<int>)
      returns (sent: seq<Payload>)
      ensures sent == Relayed(config, rooms, messages, strtotime)
    {
      sent := [];
      var username := config.username;
      var iconEmoji := config.iconEmoji;
      for r := 0 to |messages|
        invariant sent == Relayed(config, rooms, messages[..r], strtotime)
      {
        var srcRoom := messages[r].room;
        var dstRoom := Channel(rooms, srcRoom);
        var roomSent := PostRoom(RoomContext(srcRoom, dstRoom, username, iconEmoji), messages[r].messages, strtotime);
        assert messages[..r + 1] == messages[..r] + [messages[r]];
        RelayedAppend(config, rooms, messages[..r], [messages[r]], strtotime);
        sent := sent + roomSent;
      }
      assert messages[..|messages|] == messages;
    }

    /**
     * The inner loop of `Post` for one room: skips link previews, puts the
     * heading in front of a message that starts a new group, updates the
     * grouping state and adds the file attachment, if any.
     */
    static method PostRoom(ctx: RoomContext, roomMessages: seq<Message>, strtotime: string -> Option<int>)
      returns (sent: seq<Payload>)
      ensures sent == FormatRoom(ctx, roomMessages, Start, strtotime)
    {
      sent := [];
      var prevFrom, prevTimestamp := "", 0;
      assert roomMessages[0..] == roomMessages;
      for j := 0 to |roomMessages|
        invariant sent + FormatRoom(ctx, roomMessages[j..], Previous(prevFrom, prevTimestamp), strtotime)
                  == FormatRoom(ctx, roomMessages, Start, strtotime)
      {
        var message := roomMessages[j];
        var from := message.from;
        var date := message.date;
        var timestamp := Timestamp(strtotime, date);
        var text := message.text;
        ghost var prev := Previous(prevFrom, prevTimestamp);
        ghost var total := FormatRoom(ctx, roomMessages, Start, strtotime);

        if from == LinkSender {
          assert sent + FormatRoom(ctx, roomMessages[j + 1..], prev, strtotime) == total by {
            FormatRoomFrom(ctx, roomMessages, j, prev, strtotime);
          }
          continue;
        }

        if from != prevFrom || timestamp - prevTimestamp > GroupingWindow {
          text := Heading(ctx.srcRoom, from, date) + text;
        }

        prevFrom, prevTimestamp := from, timestamp;
        var data := Payload(text, ctx.dstRoom, ctx.username, ctx.iconEmoji, []);
        if message.file.Some? {
          data := data.(attachments := [AttachmentFor(message.file.value)]);
        }
        assert (sent + [data]) + FormatRoom(ctx, roomMessages[j + 1..], Previous(from, timestamp), strtotime) == total by {
          FormatRoomFrom(ctx, roomMessages, j, prev, strtotime);
          assert data == PayloadFor(ctx, message, prev, timestamp);
          ConcatAssoc(sent, [data], FormatRoom(ctx, roomMessages[j + 1..], Previous(from, timestamp), strtotime));
        }
        sent := sent + [data];
      }
      assert roomMessages[|roomMessages|..] == [];
    }

    /**
     * One run: fetch every room and advance the cursors, then relay the
     * fetched messages room by room.
     */
    method Run(cursors: map<string, string>, history: seq<seq<Message>>, strtotime: string -> Option<int>)
      returns (queries: seq<HistoryQuery>, lastMessageIds: map<string, string>, sent: seq<Payload>)
      requires rooms.Valid()
      requires |history| == |rooms.order|
      ensures |queries| == |rooms.order|
      ensures forall i :: 0 <= i < |rooms.order| ==>
        queries[i] == HistoryQuery(rooms.order[i], srcConfig.timezone, NotBefore(cursors, rooms.order[i]))
      ensures Advanced(rooms.order, cursors, history, lastMessageIds)
      ensures sent == Relayed(dstConfig, rooms, Fetched(rooms.order, cursors, history), strtotime)
    {
      var messages;
      queries, messages, lastMessageIds := GetMessages(srcConfig, rooms, cursors, history);
      sent := Post(dstConfig, rooms, messages, strtotime);
    }
  }
}
