# Afk-Bot behaviour rules, modelled in Dafny

Afk-Bot keeps a scripted player connected to a Minecraft server. Almost all of
`bot.js` wires callbacks into the game client, the pathfinder plugin, a Discord
webhook and an HTTP server. This project models the few rules of its own that
can be stated exactly, and proves properties of them:

- **Chat messages** (`ChatMessages.dfy`). In one-shot mode every configured
  message is sent once, in order. In repeating mode a timer keeps an index `i`
  that wraps to 0 after the last message. `ChatCycle` is a class holding that
  index, and `Tick` is one timer callback. Tick k sends `messages[k mod N]`.
  With an empty list the wrap test never fires, so the index grows without
  bound and every tick sends the text `undefined`.
- **Circle walk** (`Patrol.dfy`). Four waypoints are computed once around the
  bot's position. `CircleWalk.Tick` is one timer callback. It resets the index
  when it equals 4, issues the X/Z goal of that waypoint and advances, so
  tick k heads for waypoint k mod 4.
- **Kick reason** (`KickReason.dfy`). The reason is the payload's `text`. When
  that is empty and `extra` is present, `extra[0].text` is used instead. Then
  every formatting code is deleted: a `§` together with the next character,
  unless that character is a line break. This is `/§./g`. Missing fields make
  the listener throw, and the model returns that as an error.
- **Hit-or-swing tick** (`AntiAfk.dfy`). When mob attacks are on and some
  entity passes the type filter, the tick attacks the nearest such entity.
  Otherwise it swings the right arm.
- **Event listeners** (`Handlers.dfy`). These are the `chat`, `end`, `kicked`
  and `error` listeners. Each is a function from an event to its effects: log
  lines, webhook messages, a scheduled `createBot`, or a thrown error.
  `Dispatch` runs them over a stream of events.

Timers are not modelled as running on their own. Each callback is an explicit
`Tick` call, and ghost counters number the ticks. Webhook sends, log lines and
the reconnect timer are effect values, not I/O.

## Model

| member | source | states |
|---|---|---|
| `ChatMessages.ChatCycle.constructor` | bot.js:79-83 | The repeating cycle starts at index 0 over the configured list. |
| `ChatMessages.ChatCycle.Tick` | bot.js:85-91 | Sends the message at the current index, then wraps to 0 when `i + 1` equals the length and otherwise advances. The tick numbered k sends `messages[k mod N]` when the list is non-empty, and the index stays below N. With an empty list it sends `undefined` and the index equals the tick count. |
| `ChatMessages.IndexAfterIsMod` | bot.js:88-90 | From index 0, after k advances over a list of length N > 0, the index is k mod N, so it is always in [0, N). |
| `ChatMessages.MessageAtIsModular` | bot.js:85-91 | Tick k of the repeating cycle over a non-empty list sends `messages[k mod N]`. |
| `ChatMessages.EmptyListIndexGrows` | bot.js:86-90 | With an empty list the wrap test never fires: after k ticks the index is k, and each tick sends `undefined`. |
| `ChatMessages.BroadcastOnce` | bot.js:92-96 | One-shot mode sends exactly the configured messages, each once, in list order. |
| `Patrol.Waypoints` | bot.js:218-228 | There are four waypoints, all at the centre's height. The first is offset +radius on x and the second +radius on z. The third and fourth are the first two reflected through the centre. |
| `Patrol.SlotIsMod` | bot.js:230-235 | After k ticks the index is in [0, 4]. The waypoint read on tick k, after the reset of an index equal to 4, is k mod 4. |
| `Patrol.CircleWalk.constructor` | bot.js:215-230 | Activation fixes the route from the current position and radius and starts the index at 0. |
| `Patrol.CircleWalk.Tick` | bot.js:231-235 | Tick k issues the X/Z goal of waypoint k mod 4, and the index is left in [1, 4]. |
| `KickReason.ReasonText` | bot.js:192-195 | A non-empty `text` is used as is, and so is an empty one when `extra` is absent. An empty `text` with `extra` present uses `extra[0].text`. An empty `extra` array is an error, and so is a missing text field. |
| `KickReason.Strip` | bot.js:196 | The result is the input with characters deleted and the rest kept in order. No formatting code is left: every remaining `§` is last or precedes a line break. A leading character that does not start a code is kept. With `StripAppend` and `StripDropsLeadingCode` this fixes the result for every input. |
| `KickReason.StripAppend` | bot.js:196 | A prefix that does not end in `§` strips independently of what follows: `Strip(a + b) == Strip(a) + Strip(b)`. So every character outside a formatting code survives, in its place. |
| `KickReason.StripKeepsClean` | bot.js:196 | A string with no formatting code is left unchanged. |
| `KickReason.StripIdempotent` | bot.js:196 | Stripping the result again changes nothing. |
| `KickReason.NoMarkerUnchanged` | bot.js:196 | Text without any `§` is returned exactly. |
| `KickReason.StripDropsLeadingCode` | bot.js:196 | A `§` followed by a non-line-break character is removed together with that character. |
| `KickReason.CleanReason` | bot.js:192-196 | The displayed reason fails exactly when the reason choice fails, with the same error. Otherwise it is the strip of the chosen text, so it is code-free and a subsequence of that text. |
| `KickReason.FallbackReason` | bot.js:193-195 | The payload `{text: "", extra: [{text: "Banned"}]}` gives the reason `Banned`. |
| `KickReason.ColourCodeRemoved` | bot.js:192-196 | The payload `{text: "§cKicked"}` gives the reason `Kicked`. |
| `AntiAfk.NearestEligible` | bot.js:123-124 | With entities listed nearest first, the result is None iff no entity passes the filter that excludes object, player, global, orb and other. Otherwise it is the first entity that passes. |
| `AntiAfk.HitTick` | bot.js:121-133 | The tick attacks iff `attackMobs` is set and some entity passes the filter. The target passes the filter and nothing nearer does. Otherwise the tick swings the arm. It never does both. |
| `Handlers.OnChat` | bot.js:149-158 | The line `<user> message` is logged iff chat logging is on, whoever the speaker is. It is relayed to the webhook iff the speaker is not the bot. Each happens at most once, the log line first, and nothing else happens. |
| `Handlers.OnEnd` | bot.js:178-189 | With auto-reconnect on, the listener logs and relays the disconnect notice, then schedules exactly one `createBot` after the configured delay, as its last effect. Nothing else happens. With auto-reconnect off there is no listener and no effect. |
| `Handlers.OnKicked` | bot.js:191-204 | With a usable reason, the listener logs a warning and relays the cleaned, code-free reason, and does nothing else. Without one, the only effect is the throw. It never schedules a re-creation. |
| `Handlers.OnError` | bot.js:206-212 | Logs the error message and relays it as a notice, and does nothing else: it never throws and never schedules a re-creation. |
| `Handlers.Handle` | bot.js:149-212 | One event's effects. A re-creation is scheduled only by an `end` event with auto-reconnect on, using the configured delay. Only a `kicked` event can throw. |
| `Handlers.Dispatch` | bot.js:149-212 | Over a stream of events, every scheduled re-creation uses the configured delay and needs auto-reconnect on. Every throw comes from some `kicked` event in the stream. |
| `Handlers.OneReconnectPerEnd` | bot.js:178-212 | Over any stream of events, the number of scheduled re-creations equals the number of `end` events when auto-reconnect is on, and zero otherwise. |
| `Handlers.RelaysOnlyOthers` | bot.js:149-158 | Every chat line relayed to the webhook comes from a delivered chat event whose speaker is not the bot. |

## Left out

- The HTTP health endpoint (bot.js:15-25): a static HTTP response, I/O only.
- Client construction, plugin loading and pathfinder movements (bot.js:28-44), and the move-to-target goal (bot.js:99-106): calls into libraries that are not part of this model.
- The joined notice (bot.js:48-53): a fixed log line and webhook message sent once on spawn, with nothing to verify beyond the constant text.
- The heartbeat (bot.js:55-62): a webhook message every minute that formats the floating-point position with `toFixed(2)`.
- The `goal_reached` and `death` listeners (bot.js:160-176): they log, and for `death` also relay, text that interpolates the position's default string form, a floating-point value. They schedule nothing.
- The rotate behaviour (bot.js:136-140): floating-point yaw arithmetic.
- Sneak and jump (bot.js:109-115): single control-state calls with nothing to verify.
- Auto-auth (bot.js:64-74): two fixed command strings sent by a timer.
- `JSON.parse` (bot.js:192): the model takes the already-parsed payload. A malformed string, and fields that are present but not strings, are not modelled.
- `Patrol.Waypoints`: coordinates are integers, while the source adds a possibly fractional radius to floating-point positions.
- `KickReason.Strip`: works on Unicode scalar values. JavaScript's `.` without the `u` flag matches one UTF-16 code unit. So a `§` followed by a character outside the Basic Multilingual Plane removes only half of that surrogate pair in the source, but the whole character here.
- `AntiAfk.NearestEligible`: the distance ordering belongs to the game client library. The model takes the entities already listed nearest first.
- Timer scheduling: interval delays, interleaving between timers, and timers of an old session that keep firing after a reconnect are concurrency concerns. Each callback is an explicit `Tick` call.
- What happens to the process after the `kicked` listener throws is outside the model. `Dispatch` records the throw as a `Threw` effect and goes on with the next event.
- Configuration values are taken as already-evaluated booleans and integers. JavaScript truthiness of other values is not modelled.
