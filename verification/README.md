# Music queue and cookie serialiser, modelled in Dafny

This project models two parts of a Discord music bot written in Python.

The first is the music cog (`cogs/music.py`). It keeps a playback queue and a now-playing slot for each guild, in two dictionaries keyed by guild id. The commands `play`, `skip`, `stop`, `pause`, `resume`, `queue`, `nowplaying` and `leave` read and change them. `play_next` pops the head of the queue, tries to play it, and on failure drops it and tries the next. The model turns this into pure functions over an immutable state `Bot(queues, nowPlaying, voice)`. `voice` holds the voice client of each connected guild (Idle, Playing or Paused); a guild with no voice client has no key.

The second is the cookie converter (`convert_json_to_cookies_txt.py`). It writes browser cookies as a Netscape cookie file. The model is the pure serialiser `CookiesTxt`, plus a reader for the format it writes, so that the round trip can be proved.

Files:

- `wrappers.dfy`: `Option`.
- `text.dfy`: decimal rendering of integers and its parser; `Join` and `Split` on a separator character, with their round trips.
- `music.dfy`: the cog's state, `get_queue`, `add_to_queue`, `play_next`, every command, and the voice client's completion callback.
- `music_properties.dfy`: lemmas that span several steps. They cover FIFO order, failure recovery, `stop` and `leave`, an invariant, guild independence, and the queue listing.
- `cookies.dfy`: the cookie serialiser, its reader and the round trip.

Collaborators outside the model are passed in as parameters:

- `userInVoice`: whether the invoking user is in a voice channel.
- `lookup: Option<Info>`: the resolver's answer to the query. `None` means both lookups raised.
- `start: Song -> bool`: whether extracting a song's stream and starting playback succeed.

The voice client's `after=` callback is an explicit event, `TrackEnded`. It sets the client to Idle and runs `play_next`.

Behaviour of the code worth knowing, which the model keeps as written:

- The code never clears `now_playing` when the queue runs dry, or when every attempt fails. The finished (or last failed) song stays recorded, so `nowplaying` keeps reporting it. `IdleWithStaleNowPlaying` and `SkipScenario` show this. So only one direction of "a song is recorded exactly when the client is playing or paused" holds: "playing or paused implies a recorded song", proved as `Consistent`.
- The code has no generation counter guarding late completions. A completion delivered right after `stop` or `leave`, before any later command, is still harmless: it finds the queue empty (`CompletionAfterStopIsNoOp`, `CompletionAfterLeaveIsNoOp`). A completion that arrives after a later `play` is not covered; see "Left out".
- `stop` leaves an empty queue entry (`queues[g] = []`). `leave` removes the entry.
- `play` queues one song per command. Whatever the resolver returns, `play` builds exactly one song record from it and queues it once (cogs/music.py:101-109), so one command never adds several songs.

## Model

| member | source | states |
|---|---|---|
| Music.AddToQueue | cogs/music.py:38-42 | the song ends up at the tail of the guild's queue, which is created empty first if missing; now-playing, voice clients and all other guilds are unchanged |
| Music.PlayNext | cogs/music.py:44-79 | an empty queue leaves everything unchanged. Otherwise the old queue splits, in order, into the dropped songs (all of which failed), the song now recorded as playing (which started), and the remaining queue. Without a voice client exactly the head is popped into now-playing and nothing plays. When every attempt fails the queue ends empty and the last failed song stays recorded. Other guilds are untouched |
| Music.TrackEnded | cogs/music.py:64-72 | the completion callback for the song currently playing: the client goes idle and the queue is advanced as by `play_next`; on an empty queue nothing but the client state changes |
| Music.MakeSong | cogs/music.py:101-106 | a song is built exactly when the resolver returned both title and url, and it carries that title and url |
| Music.Play | cogs/music.py:81-119 | refuses a user outside voice with no change; always leaves a voice client; an unresolvable query changes no queue; while playing, the song is queued at the tail with a "queued" reply; on an idle client with an empty queue the song is tried at once: it is recorded as playing, and either starts or is dropped with one failure notice |
| Music.Skip | cogs/music.py:121-131 | accepted exactly when the guild's client is playing; on acceptance only the client state changes (to idle); on rejection nothing changes |
| Music.Stop | cogs/music.py:133-145 | without a voice client, refused with no change; otherwise the guild's queue is empty, its now-playing entry removed and its client idle |
| Music.Pause | cogs/music.py:147-157 | accepted exactly when playing, and then only the client state changes, to paused; rejected otherwise with no change |
| Music.Resume | cogs/music.py:159-169 | accepted exactly when paused, and then only the client state changes, to playing; rejected otherwise with no change |
| Music.ShowQueue | cogs/music.py:171-183 | never changes state; replies "queue empty" exactly when the guild's queue is empty or missing, and otherwise sends the numbered listing of that queue |
| Music.ShowNowPlaying | cogs/music.py:185-192 | never changes state; reports the recorded song's title, or "nothing playing" exactly when none is recorded |
| Music.Leave | cogs/music.py:194-206 | without a voice client, refused with no change; otherwise the guild's queue, now-playing entry and voice client are all removed, and no other guild is touched |
| Music.Apply | cogs/music.py:81-206 | whatever the command or completion, no guild other than the one it is for changes |
| MusicProperties.EnqueueAll | cogs/music.py:38-42 | successive `add_to_queue` calls leave the queue as the old queue followed by the new songs, in the order they were added |
| MusicProperties.DrainPlaysSurvivorsInOrder | cogs/music.py:58-79 | with a voice client, letting songs finish one after another plays exactly the queued songs that can be played, in queue order. The dropped songs are exactly the failing ones, in order, and none is retried. The run ends only with an empty queue and an idle client |
| MusicProperties.Fifo | cogs/music.py:38-51 | with a voice client and every song playable, songs added one by one to an empty queue are played in insertion order |
| MusicProperties.OneBadSong | cogs/music.py:76-79 | one failing song at position k is dropped exactly once, and all other songs still play in their original order |
| MusicProperties.ReadingMissingQueueCreatesNothing | cogs/music.py:34-36 | for a guild with no queue entry, the queue reads as empty, and listing it or advancing it creates no entry and changes nothing |
| MusicProperties.StopIdempotent | cogs/music.py:139-141 | `stop` twice gives the same state and replies as `stop` once |
| MusicProperties.LeaveTwice | cogs/music.py:197-202 | after `leave`, a second `leave` is refused and changes nothing |
| MusicProperties.CompletionAfterStopIsNoOp | cogs/music.py:139-144 | the completion a stopped client delivers afterwards changes nothing and sends nothing |
| MusicProperties.CompletionAfterLeaveIsNoOp | cogs/music.py:200-205 | the completion delivered after `leave` changes nothing and sends nothing |
| MusicProperties.ApplyKeepsConsistent | cogs/music.py:50-72 | every command and completion keeps the invariant that a playing or paused client has a song recorded as now playing |
| MusicProperties.IdleWithStaleNowPlaying | cogs/music.py:46-48 | when the last song finishes, the client goes idle and the finished song stays recorded as now playing |
| MusicProperties.SkipScenario | cogs/music.py:121-131 | with three queued songs: the first plays; the second follows when it ends; a skip moves on to the third; after the third the client is idle and the queue empty |
| MusicProperties.ListingReadsBack | cogs/music.py:178-183 | when no title contains a newline, the listing, cut at newlines, is the header and then one line per queued song in queue order, the i-th being "i. title" counted from 1 |
| MusicProperties.ListingNumbersReadBack | cogs/music.py:180-181 | each listing line starts with the decimal numeral of the song's position, which reads back as that position, and ends with the title |
| MusicProperties.ApplyIsLocal | cogs/music.py:15-16 | what an event does to its guild, and what it replies, depends only on that guild's entries |
| MusicProperties.EventsOnDifferentGuildsCommute | cogs/music.py:15-16 | events for two different guilds commute: in either order the final state is the same, and each sends the replies it would send alone |
| Cookies.StartsWithHeader | convert_json_to_cookies_txt.py:7 | for any cookies, the output starts with `# Netscape HTTP Cookie File` and a blank line |
| Cookies.CookieLineIsJoinedFields | convert_json_to_cookies_txt.py:16 | each cookie's line is its seven fields joined by tabs, in the order domain, include-subdomains, path, secure, expiration, name, value, then a newline |
| Cookies.LineReadsBack | convert_json_to_cookies_txt.py:9-16 | a cookie without tabs or newlines in its text gives a line that ends in a newline and splits into exactly its seven fields. That line reads back with include-subdomains TRUE exactly for a leading dot, secure TRUE exactly for a secure cookie, and expiration 0 when the cookie has none, its `expirationDate` otherwise |
| Cookies.LinesSplit | convert_json_to_cookies_txt.py:9-16 | for cookies whose domain, path, name and value hold no newline (tabs allowed), the cookie lines, cut at newlines, are the cookies' tab-joined field lists, one per cookie in input order, then the empty remainder after the last newline |
| Cookies.ParseCleanLines | convert_json_to_cookies_txt.py:9-16 | for cookies whose domain, path, name and value hold no tab or newline, reading the written cookie lines back gives exactly one entry per cookie, in input order |
| Text.SplitJoin | convert_json_to_cookies_txt.py:16 | fields free of the separator, joined with it and split again, come back unchanged; this is why the tab-separated line reads back |
| Cookies.FileLines | convert_json_to_cookies_txt.py:7-16 | for cookies whose domain, path, name and value hold no newline (tabs allowed), the file, cut at newlines, is the header, a blank line, then exactly one line per cookie in input order, then the empty remainder after the final newline |
| Cookies.ReadBackCookiesTxt | convert_json_to_cookies_txt.py:7-16 | for cookies whose domain, path, name and value hold no tab or newline, the reader `ReadCookieFile` (which requires exactly this header and a blank line) recovers exactly one entry per cookie, in input order, with every field intact |
| Text.ParseIntToString | convert_json_to_cookies_txt.py:13 | the decimal form written for the expiration, sign included, reads back as the same integer |

## Left out

- Stream extraction with yt-dlp, the search fallback and the FFmpeg audio source (cogs/music.py:60-72, 93-106) are foreign library calls. They appear only as the `lookup` answer and the `start` oracle.
- The `start` oracle answers per song. A song that fails once fails again when retried in the same run. A transient failure that depends on timing is not modelled.
- The `after=` callback runs on another thread and is scheduled onto the event loop. That concurrency is not modelled. A completion is an explicit `TrackEnded` event. Its ordering relative to later commands is not modelled; for example, a completion from a stopped song might arrive after a new `play`.
- A stale completion, from a player stopped by `stop` or `skip`, that arrives after a later `play` has started a new song. The model's `TrackEnded` treats every completion as the end of the current song: it idles the client and advances the queue, which may start the next queued song. In the source the callback only runs `play_next` (cogs/music.py:69-71). With an empty queue that leaves the playing client alone. With a song queued, `play_next` pops it and the voice library refuses to play over the current song, so the source drops it with the failure notice (cogs/music.py:76-79). Telling a stale completion from a current one would need the player's identity, which the model does not track.
- Connecting to the user's voice channel (cogs/music.py:89) is assumed to succeed. In the source it sits outside the `try`.
- When `play` arrives while the client is paused, the source calls `play_next` because `is_playing()` is false. What the voice library does with a second `play` on a paused client is outside the model. The `start` oracle decides it, and the client is Playing if it succeeds.
- An exception raised by `ctx.send` inside `play_next`'s `try` would also count as a playback failure there. Sending messages is not modelled; replies are abstract `Reply` values, with no message text except the queue listing.
- Logging, the yt-dlp options, and the song's duration and thumbnail: they are carried but never used.
- bot.py (cog loading, gateway, presence), cogs/help.py and cogs/ping.py are I/O and presentation; they are not part of this model.
- Reading `cookies.json` and writing `cookies.txt` are file I/O.
- Cookies.Cookie: `expirationDate` is taken as an already-truncated integer. The float and the truncation done by `int()` are not modelled.
- Cookies.Cookie: every cookie has all of `domain`, `path`, `secure`, `name` and `value`, and `expirationDate` is either missing or a number. So the converter's exception path is not modelled. In the source a missing key raises `KeyError` (convert_json_to_cookies_txt.py:9-15), and `"expirationDate": null` makes `int(None)` raise (line 13). Either way the header and the earlier cookies' lines are already written (lines 7 and 16), so the file is left truncated.
- Cookies.ReadBackCookiesTxt: the round trip needs a cookie's domain, path, name and value to contain no tab or newline. The converter writes such text unchanged, which produces a malformed line; only well-formed cookies are covered.
- Music.Play: when the client is not playing and the queue already holds songs, the contract does not describe the outcome itself. It follows from `Music.PlayNext`'s contract applied to the old queue followed by the new song.
