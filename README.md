# Hipchat to Slack relay, modelled in Dafny

This project models `App\Application` of the relay in `src/App/Application.php`. The relay works in three steps:

1. It reads the room list from its configuration. Each entry is either a bare Hipchat room or a room paired with a Slack channel. The list is normalised into an ordered dictionary from source room to destination channel.
2. For every room, in that order, it asks the Hipchat room history for the messages since the room's stored cursor. It keeps the messages that were not relayed before and moves the cursor to the last message received.
3. It formats each kept message as a Slack incoming-webhook payload and sends it. Link previews are dropped. A heading goes in front of a message unless it continues the same sender's recent messages. A file becomes an image-style or file-style attachment.

The files:

- `php.dfy` (module `Php`): the pieces of PHP value semantics the relay relies on.
  - `null` is `None`.
  - A string is truthy unless it is `""` or `"0"`.
  - `?:`, `??` and `is_numeric` (PHP 8 rules).
  - The decimal rendering of a file size.
- `rooms.dfy` (module `Rooms`): the configuration entries and the ordered room dictionary (`RoomMap`: keys in insertion order plus a map). `Normalized` specifies the constructor's loop as a fold.
- `history.dfy` (module `History`): messages, history requests and the cursor rules.
  - `Fetched` gives the messages kept per room.
  - `Advance` is the fold that moves the cursors.
  - `Advanced` describes the resulting cursor dictionary without a fold.
- `format.dfy` (module `Format`): payloads, attachments and the grouping state.
  - `FormatRoom` gives the payloads of one room.
  - `Relayed` gives the payloads of a whole run.
- `app.dfy` (module `App`): the class `Application`.
  - Its constructor runs the normalisation loop.
  - `GetMessages`, `Post` and its per-room loop `PostRoom` are imperative loops. Each one is proved equal to the function that defines its result.
  - `Run` chains the two steps.

The Hipchat history service, the cursor file, `strtotime` and the webhook are not called. Each room's history answer, the decoded cursor dictionary and the date parser come in as arguments. The history requests, the cursor dictionary to store and the payloads to post come out as results.

## Model

| member | source | states |
|---|---|---|
| Php.DecimalRoundTrip | src/App/Application.php:182 | The decimal text of a size reads back as the same number, so the size in a file title is exact. |
| Rooms.Put | src/App/Application.php:41 | Assigning to a key keeps keys distinct and stores the value. An existing key keeps its position. A new key goes at the end. |
| Rooms.Normalized | src/App/Application.php:33-42 | The normalised room dictionary always has distinct keys that match its order. |
| Rooms.NormalizedRooms | src/App/Application.php:35-41 | A room is in the dictionary exactly when some entry names it, as a bare value or as a key. |
| Rooms.NormalizedLastWins | src/App/Application.php:35-41 | The last entry naming a room decides its channel. The channel is the default when the entry is bare or its destination is falsy. Otherwise it is the explicit destination. |
| Rooms.NormalizedOrder | src/App/Application.php:33-42 | Rooms keep the position of their first appearance. An earlier room was named by an entry that comes before every entry naming a later room. |
| Rooms.NormalizedDefaultCovers | src/App/Application.php:34-41 | With a configured default channel, no room resolves to null. With a non-empty default, every room resolves to a non-empty channel. With a truthy default, every room resolves to a truthy channel. |
| History.Fetched | src/App/Application.php:86-106 | There is one entry per room, in the dictionary's order, each labelled with its room. |
| History.FetchedMessages | src/App/Application.php:96-106 | A room with a cursor and a non-empty answer loses the answer's first message. A room without a cursor keeps the whole answer. An empty answer stays empty. |
| History.AdvanceKeeps | src/App/Application.php:86-107 | A key not among the rooms handled so far keeps its cursor entry, present or absent. |
| History.AdvanceStores | src/App/Application.php:96-98 | A handled room with a non-empty answer stores the id of the answer's last message (taken before the first message is dropped). |
| History.AdvanceSkips | src/App/Application.php:95-106 | A handled room with an empty answer keeps its cursor entry, present or absent. |
| History.AdvanceAll | src/App/Application.php:84-110 | The cursor dictionary written back after the loop satisfies `Advanced`. Each room's entry depends only on that room's answer. Keys that are not rooms are untouched. |
| History.AdvancedUnique | src/App/Application.php:96-98 | `Advanced` determines the new cursor dictionary completely. |
| Format.AttachmentShape | src/App/Application.php:166-188 | An attachment is image-style exactly when the file has a truthy thumbnail URL; it then carries the name, URL and thumbnail. Otherwise it links to the URL with the title `name (size B)`, and that size reads back as the file's size. |
| Format.NonLink | src/App/Application.php:140-143 | No relayed message is from `Link`, and there are no more relayed messages than messages. |
| Format.NonLinkAppend | src/App/Application.php:134-143 | The relayed messages are the in-order filter of the room's messages. Those of a joined list are those of its parts, in order and with repeats kept. A single message is kept exactly when it is not from `Link`. |
| Format.NonLinkMembers | src/App/Application.php:140-143 | A message is relayed exactly when it is not from `Link`. |
| Format.FormatRoomCount | src/App/Application.php:134-143 | A room yields exactly one payload per message that is not from `Link`. |
| Format.LinkTransparent | src/App/Application.php:140-143 | Removing a `Link` message anywhere changes neither the payloads nor the grouping of the messages after it. |
| Format.FormatRoomAt | src/App/Application.php:134-188 | The j-th payload of a room comes from the j-th relayed message. It has a heading exactly when the sender changes or the gap to the previous relayed message exceeds 300 seconds. It goes to the room's channel with the configured username and icon. It has one attachment exactly when the message has a file. |
| Format.ConsecutiveHeading | src/App/Application.php:145-157 | Of two consecutive messages, the second has a heading exactly when its sender differs from the first's or it is more than 300 seconds later. |
| Format.RelayedAppend | src/App/Application.php:129-133 | Rooms are formatted independently, because the grouping state restarts at `('', 0)` for each room. Relaying two room lists in turn is the same as relaying them joined. |
| App.TwoRunScenario | src/App/Application.php:84-112 | First run on room "General" with no cursor and messages "10", "11": both are relayed and the cursor becomes "11". Second run sends "11" as `not-before`, gets "11", "12", relays only "12" and moves the cursor to "12". |
| App.Application.constructor | src/App/Application.php:27-45 | The stored rooms are `Normalized` applied to the configured entries and the default channel. The source configuration, the destination configuration and the cursor file path are kept as given. |
| App.Application.GetMessages | src/App/Application.php:84-112 | There is one request per room, in order, with `not-before` set exactly when the room's stored cursor is truthy. The kept messages are `Fetched`. The new cursor dictionary is the fold `Advance` and satisfies `Advanced`. |
| App.Application.Post | src/App/Application.php:123-193 | The payloads sent are `Relayed`: the rooms in order, each formatted from a fresh grouping state, with the channel looked up in the room dictionary. |
| App.Application.PostRoom | src/App/Application.php:132-192 | The payloads sent for one room are `FormatRoom` of its messages from the state `('', 0)`. |
| App.Application.Run | src/App/Application.php:56-65 | One request per room in order, carrying the configured timezone and `not-before` exactly when the room's cursor is truthy. The cursors end as `Advanced` says. The payloads are those that `Relayed` gives for the fetched messages. |

## Left out

- Networking: the Hipchat client, OAuth token and `RoomAPI` (lines 77-82, 95) are not modelled. Each room's history answer is an input, and the request is returned as a `HistoryQuery`.
- Room-name encoding: the `rawurlencode` of the room name (line 94) is not modelled, because the encoded name only goes to the network.
- Cursor file I/O: reading, decoding, encoding and writing the cursor file (lines 85, 110) are not modelled. The decoded dictionary is an input and the dictionary to store is an output.
- Cursor-file fallbacks: invalid JSON or a falsy decoded value (`?: []`, line 85) counts as the empty dictionary, which is the caller passing the empty map. A file that decodes to a truthy value that is not an array is not modelled.
- Cursor key order: the key order of the stored JSON object is not modelled. A `map` has no order.
- Constructor file creation: the `file_exists`/`file_put_contents` call that creates the cursor file (lines 46-48) is not modelled.
- Webhook: the curl handle and the POST of each payload (`getHandler`, lines 125, 190-195, 198-222) are not modelled. The payloads are returned in sending order. Send failures are ignored by the source, so they change nothing.
- Failures: the model has no failure paths. `Run` returns the requests, the new cursors and the payloads together, so it cannot express the order in which the source commits them.
  - If a history call (line 95) throws, the run stops before line 110 writes the cursor file and before `post` runs (line 64). No cursor moves and nothing is sent.
  - The cursor file is written inside `getMessages` (line 110), before the first payload goes out (line 191). A run that stops while posting has already moved every room's cursor, and its unsent messages are never relayed.
  - In particular, a `slack` configuration without `webhook_url` passes `null` to `getHandler(string $url)` and throws a `TypeError` at line 125, after line 110 has moved the cursors. So a missing webhook URL loses that run's messages; the source does not check it before the history calls.
- Dates: `strtotime` is a function parameter `string -> Option<int>`, where `None` stands for `false`.
- `index.php` is not part of this model, beyond the single `run` call that `Run` models.
- Format.NeedsHeading: `$from != $prevFrom` is modelled as string inequality. PHP compares two numeric strings numerically (`"1e1" != "10"` is false), and that case is not modelled.
- Rooms.Put: PHP turns a key that is a canonical decimal integer string into an integer key. The model keeps every room as a string, which is the same up to this one-to-one renaming.
- Configuration values: the model assumes the room list holds only strings or null, and only string keys or integer keys. Other values (arrays, numbers as values) are not modelled.
- Missing configuration keys: `hipchat`, `slack` and `rooms` fall back to `[]` (lines 29, 30, 35), and the default `channel` falls back to `null` through `??` (line 34). The other keys are read without `??` (lines 45, 77-78, 127-128). A missing one becomes `null`, with an "Undefined array key" warning. That is fatal only where the `null` reaches a `string` parameter (`getMessages` at line 75, `getHandler` at line 125) or `file_put_contents` (line 47). Elsewhere the `null` travels on: as the OAuth token or the timezone (lines 77-78), or as the username or icon of every payload (lines 127-128). None of this is modelled. The configuration is a complete record, and only the default channel is an `Option`.
- PHP version: `is_numeric` follows PHP 8, where trailing white space is allowed (`"12 "` is numeric). Under PHP 7 such a key is not numeric and stays a keyed room; the model assumes PHP 8.
- Integer overflow: PHP integers are 64-bit and the file size is unbounded here. The size is printed in decimal, and overflow to float is not modelled.
- Rooms.NormalizedDefaultCovers: with the empty default `""`, an entry whose destination is `""` or `"0"` falls through `?:` to `""`. So "every room has a non-empty channel" does not hold for an empty default, and the lemma promises only a non-null channel in that case.
