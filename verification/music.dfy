/**
 The music cog: a playback queue and a now-playing slot per guild, and the
 commands that read and change them. The chat client, the voice connection,
 the resolver and the transcoder are outside the model; what they decide is
 passed in:
 - whether the invoking user is in a voice channel,
 - what the resolver answered for a query (`Info`, or None when it raised),
 - `start`, which says for a song whether extracting its stream and starting
   playback succeed.
 The voice client of each guild appears only through its observable state.
 */
module Music {
  import opened Wrappers
  import opened Text

  type GuildId = int

  /** A queued track, the dictionary `play` builds from the resolver's answer. */
  datatype Song = Song(title: string, url: string, duration: int, thumbnail: string)

  /** The resolver's answer for a query; a key it did not return is None. */
  datatype Info = Info(title: Option<string>, url: Option<string>, duration: Option<int>, thumbnail: Option<string>)

  /** What a connected voice client is doing. */
  datatype Voice = Idle | Playing | Paused

  /**
   The cog's two maps, and the voice client of every guild the bot is connected
   in (a guild absent from `voice` has no voice client).
   */
  datatype Bot = Bot(
    queues: map<GuildId, seq<Song>>,
    nowPlaying: map<GuildId, Song>,
    voice: map<GuildId, Voice>)

  /** The messages the cog sends, by kind. */
  datatype Reply =
    | UserNotInVoice        // the invoking user is in no voice channel
    | BotNotPlaying         // skip, stop, pause, resume without a voice client
    | BotNotInChannel       // leave without a voice client
    | NothingPlaying        // skip or pause while not playing; nowplaying with nothing recorded
    | NotPaused             // resume while not paused
    | SearchFailed          // the query could not be resolved
    | Queued(title: string) // added behind a song that is playing
    | Started(title: string)
    | PlaybackFailed        // extraction or playback of one song failed
    | Skipped | Stopped | PausedReply | Resumed | Left
    | QueueEmpty
    | QueueListing(text: string)
    | NowPlayingReply(title: string)

  /** The effect of one command: the new state and the messages sent, in order. */
  datatype Step = Step(bot: Bot, replies: seq<Reply>)

  /** The effect of one `play_next`: the new state, the songs dropped after failing, and whether one started. */
  datatype Advance = Advance(bot: Bot, failed: seq<Song>, started: bool)

  // ---------------------------------------------------------------------------
  // Per-guild isolation

  /** Key `h` is present in both maps with the same value, or absent from both. */
  ghost predicate SameEntry<V>(m1: map<GuildId, V>, m2: map<GuildId, V>, h: GuildId) {
    (h in m1 <==> h in m2) && (h in m1 ==> m1[h] == m2[h])
  }

  /** Nothing about any guild other than `g` differs between the two states. */
  ghost predicate OthersUnchanged(b1: Bot, b2: Bot, g: GuildId) {
    forall h :: h != g ==>
      SameEntry(b1.queues, b2.queues, h) && SameEntry(b1.nowPlaying, b2.nowPlaying, h) && SameEntry(b1.voice, b2.voice, h)
  }

  // ---------------------------------------------------------------------------
  // Queue access

  /** The guild's queue; a guild without an entry has an empty one, and no entry is created. */
  function GetQueue(b: Bot, g: GuildId): seq<Song> {
    if g in b.queues then b.queues[g] else []
  }

  /** Appends `s` at the tail of the guild's queue, creating the queue first when there is none. */
  function AddToQueue(b: Bot, g: GuildId, s: Song): (r: Bot)
    ensures g in r.queues && r.queues[g] == GetQueue(b, g) + [s]
    ensures r.nowPlaying == b.nowPlaying && r.voice == b.voice
    ensures OthersUnchanged(b, r, g)
  {
    var q := if g !in b.queues then [] else b.queues[g];
    b.(queues := b.queues[g := q + [s]])
  }

  /**
   Pops the head of the queue into now-playing and tries to play it; a song
   whose extraction or playback fails is dropped, with a notice, and the next
   one is tried. Without a voice client the head is still popped, and nothing
   plays. Each attempt shortens the queue, so the recursion ends.

   The queue is cut into the songs that failed, the one now playing and the
   rest, in their original order; every dropped song failed and the started
   one did not. When every attempt fails, the queue is left empty and the
   last failed song stays recorded as now playing.
   */
  function PlayNext(b: Bot, g: GuildId, start: Song -> bool): (a: Advance)
    ensures OthersUnchanged(b, a.bot, g)
    ensures GetQueue(b, g) == [] ==> a == Advance(b, [], false)
    ensures GetQueue(b, g) != [] ==> g in a.bot.queues && g in a.bot.nowPlaying
    ensures forall i :: 0 <= i < |a.failed| ==> !start(a.failed[i])
    ensures GetQueue(b, g) != [] && g !in b.voice ==>
      && a.failed == [] && !a.started && a.bot.voice == b.voice
      && GetQueue(b, g) == [a.bot.nowPlaying[g]] + GetQueue(a.bot, g)
    ensures GetQueue(b, g) != [] && g in b.voice && a.started ==>
      && start(a.bot.nowPlaying[g])
      && a.bot.voice == b.voice[g := Playing]
      && GetQueue(b, g) == a.failed + [a.bot.nowPlaying[g]] + GetQueue(a.bot, g)
    ensures GetQueue(b, g) != [] && g in b.voice && !a.started ==>
      && a.bot.voice == b.voice
      && GetQueue(b, g) == a.failed
      && GetQueue(a.bot, g) == []
      && a.bot.nowPlaying[g] == a.failed[|a.failed| - 1]
    decreases |GetQueue(b, g)|
  {
    var q := GetQueue(b, g);
    if q == [] then Advance(b, [], false)
    else
      var song := q[0];
      var popped := b.(queues := b.queues[g := q[1..]], nowPlaying := b.nowPlaying[g := song]);
      assert OthersUnchanged(b, popped, g);
      assert GetQueue(popped, g) == q[1..];
      if g !in b.voice then Advance(popped, [], false)
      else if start(song) then Advance(popped.(voice := popped.voice[g := Playing]), [], true)
      else
        var rest := PlayNext(popped, g, start);
        OthersUnchangedTransitive(b, popped, rest.bot, g);
        assert q == [song] + q[1..];
        assert rest.started ==> q == ([song] + rest.failed) + [rest.bot.nowPlaying[g]] + GetQueue(rest.bot, g);
        Advance(rest.bot, [song] + rest.failed, rest.started)
  }

  lemma OthersUnchangedTransitive(b1: Bot, b2: Bot, b3: Bot, g: GuildId)
    requires OthersUnchanged(b1, b2, g) && OthersUnchanged(b2, b3, g)
    ensures OthersUnchanged(b1, b3, g)
  {
    forall h | h != g
      ensures SameEntry(b1.queues, b3.queues, h)
      ensures SameEntry(b1.nowPlaying, b3.nowPlaying, h)
      ensures SameEntry(b1.voice, b3.voice, h)
    {
      assert SameEntry(b1.queues, b2.queues, h) && SameEntry(b2.queues, b3.queues, h);
      assert SameEntry(b1.nowPlaying, b2.nowPlaying, h) && SameEntry(b2.nowPlaying, b3.nowPlaying, h);
      assert SameEntry(b1.voice, b2.voice, h) && SameEntry(b2.voice, b3.voice, h);
    }
  }

  /** One failure notice per dropped song. */
  function FailureNotices(failed: seq<Song>): (r: seq<Reply>)
    ensures |r| == |failed|
    ensures forall i :: 0 <= i < |r| ==> r[i] == PlaybackFailed
  {
    if |failed| == 0 then [] else [PlaybackFailed] + FailureNotices(failed[1..])
  }

  /** The notices one `play_next` sends: one per failed song, then the title of the song that started. */
  function Notices(a: Advance, g: GuildId): seq<Reply> {
    FailureNotices(a.failed)
    + (if a.started && g in a.bot.nowPlaying then [Started(a.bot.nowPlaying[g].title)] else [])
  }

  // ---------------------------------------------------------------------------
  // Commands

  /** The song `play` builds: title and url are required, duration defaults to 0, thumbnail to "". */
  function MakeSong(info: Info): (s: Option<Song>)
    ensures s.Some? <==> info.title.Some? && info.url.Some?
    ensures s.Some? ==> s.value.title == info.title.value && s.value.url == info.url.value
  {
    match (info.title, info.url)
    case (Some(t), Some(u)) => Some(Song(t, u, info.duration.GetOr(0), info.thumbnail.GetOr("")))
    case _ => None
  }

  /**
   `play`: refuses a user outside voice; connects when there is no voice client;
   queues the resolved song at the tail; starts playback unless a song is playing.
   */
  function Play(b: Bot, g: GuildId, userInVoice: bool, lookup: Option<Info>, start: Song -> bool): (s: Step)
    ensures OthersUnchanged(b, s.bot, g)
    ensures !userInVoice ==> s == Step(b, [UserNotInVoice])
    ensures userInVoice ==> g in s.bot.voice
    ensures userInVoice && MakeSongOf(lookup).None? ==>
      s.replies == [SearchFailed] && s.bot.queues == b.queues && s.bot.nowPlaying == b.nowPlaying
    ensures userInVoice && g in b.voice && b.voice[g] == Playing && MakeSongOf(lookup).Some? ==>
      var song := MakeSongOf(lookup).value;
      && s.replies == [Queued(song.title)]
      && GetQueue(s.bot, g) == GetQueue(b, g) + [song]
      && s.bot.nowPlaying == b.nowPlaying && s.bot.voice == b.voice
    ensures userInVoice && !(g in b.voice && b.voice[g] == Playing) && MakeSongOf(lookup).Some? && GetQueue(b, g) == [] ==>
      var song := MakeSongOf(lookup).value;
      && g in s.bot.nowPlaying && s.bot.nowPlaying[g] == song
      && GetQueue(s.bot, g) == []
      && (start(song) ==> s.replies == [Started(song.title)] && s.bot.voice[g] == Playing)
      && (!start(song) ==> s.replies == [PlaybackFailed])
  {
    if !userInVoice then Step(b, [UserNotInVoice])
    else
      var connected := if g in b.voice then b else b.(voice := b.voice[g := Idle]);
      match MakeSongOf(lookup)
      case None => Step(connected, [SearchFailed])
      case Some(song) =>
        var queued := AddToQueue(connected, g, song);
        OthersUnchangedTransitive(b, connected, queued, g);
        if connected.voice[g] != Playing then
          var a := PlayNext(queued, g, start);
          OthersUnchangedTransitive(b, queued, a.bot, g);
          Step(a.bot, Notices(a, g))
        else
          Step(queued, [Queued(song.title)])
  }

  /** The song for the resolver's answer, None when the resolver raised or left out title or url. */
  function MakeSongOf(lookup: Option<Info>): Option<Song> {
    match lookup
    case None => None
    case Some(info) => MakeSong(info)
  }

  /** `skip`: only while playing; stops the voice client, whose completion then runs `play_next`. */
  function Skip(b: Bot, g: GuildId): (s: Step)
    ensures OthersUnchanged(b, s.bot, g)
    ensures s.replies == [Skipped] <==> g in b.voice && b.voice[g] == Playing
    ensures s.replies != [Skipped] ==> s.bot == b
    ensures s.replies == [Skipped] ==>
      s.bot.queues == b.queues && s.bot.nowPlaying == b.nowPlaying && s.bot.voice == b.voice[g := Idle]
  {
    if g !in b.voice then Step(b, [BotNotPlaying])
    else if b.voice[g] != Playing then Step(b, [NothingPlaying])
    else Step(b.(voice := b.voice[g := Idle]), [Skipped])
  }

  /** `stop`: with a voice client, empties the queue (creating it), forgets now-playing and stops the client. */
  function Stop(b: Bot, g: GuildId): (s: Step)
    ensures OthersUnchanged(b, s.bot, g)
    ensures g !in b.voice ==> s == Step(b, [BotNotPlaying])
    ensures g in b.voice ==>
      && s.replies == [Stopped]
      && g in s.bot.queues && s.bot.queues[g] == []
      && g !in s.bot.nowPlaying
      && g in s.bot.voice && s.bot.voice[g] == Idle
  {
    if g !in b.voice then Step(b, [BotNotPlaying])
    else Step(Bot(b.queues[g := []], b.nowPlaying - {g}, b.voice[g := Idle]), [Stopped])
  }

  /** `pause`: only while playing. */
  function Pause(b: Bot, g: GuildId): (s: Step)
    ensures OthersUnchanged(b, s.bot, g)
    ensures s.replies == [PausedReply] <==> g in b.voice && b.voice[g] == Playing
    ensures s.replies != [PausedReply] ==> s.bot == b
    ensures s.replies == [PausedReply] ==>
      s.bot.queues == b.queues && s.bot.nowPlaying == b.nowPlaying && s.bot.voice == b.voice[g := Paused]
  {
    if g !in b.voice then Step(b, [BotNotPlaying])
    else if b.voice[g] != Playing then Step(b, [NothingPlaying])
    else Step(b.(voice := b.voice[g := Paused]), [PausedReply])
  }

  /** `resume`: only while paused. */
  function Resume(b: Bot, g: GuildId): (s: Step)
    ensures OthersUnchanged(b, s.bot, g)
    ensures s.replies == [Resumed] <==> g in b.voice && b.voice[g] == Paused
    ensures s.replies != [Resumed] ==> s.bot == b
    ensures s.replies == [Resumed] ==>
      s.bot.queues == b.queues && s.bot.nowPlaying == b.nowPlaying && s.bot.voice == b.voice[g := Playing]
  {
    if g !in b.voice then Step(b, [BotNotPlaying])
    else if b.voice[g] != Paused then Step(b, [NotPaused])
    else Step(b.(voice := b.voice[g := Playing]), [Resumed])
  }

  const ListingHeader: string := "\U{1F4CB} **Queue hi\U{1EC7}n t\U{1EA1}i:**"

  /** The numbered lines of the listing, counting from 1. */
  function QueueLines(q: seq<Song>): (lines: seq<string>)
    ensures |lines| == |q|
    ensures forall i :: 0 <= i < |q| ==> lines[i] == NatToString(i + 1) + ". " + q[i].title
  {
    seq(|q|, i requires 0 <= i < |q| => NatToString(i + 1) + ". " + q[i].title)
  }

  /** The listing message: the header, then one numbered line per queued song, joined by newlines. */
  function QueueMessage(q: seq<Song>): string {
    Join([ListingHeader] + QueueLines(q), '\n')
  }

  /** `queue`: reads the queue without changing anything. */
  function ShowQueue(b: Bot, g: GuildId): (s: Step)
    ensures s.bot == b
    ensures GetQueue(b, g) == [] <==> s.replies == [QueueEmpty]
    ensures GetQueue(b, g) != [] ==> s.replies == [QueueListing(QueueMessage(GetQueue(b, g)))]
  {
    var q := GetQueue(b, g);
    if q == [] then Step(b, [QueueEmpty])
    else Step(b, [QueueListing(QueueMessage(q))])
  }

  /** `nowplaying`: reads the now-playing slot without changing anything. */
  function ShowNowPlaying(b: Bot, g: GuildId): (s: Step)
    ensures s.bot == b
    ensures g in b.nowPlaying ==> s.replies == [NowPlayingReply(b.nowPlaying[g].title)]
    ensures g !in b.nowPlaying <==> s.replies == [NothingPlaying]
  {
    if g in b.nowPlaying then Step(b, [NowPlayingReply(b.nowPlaying[g].title)])
    else Step(b, [NothingPlaying])
  }

  /** `leave`: with a voice client, removes the guild's queue and now-playing entries and disconnects. */
  function Leave(b: Bot, g: GuildId): (s: Step)
    ensures OthersUnchanged(b, s.bot, g)
    ensures g !in b.voice ==> s == Step(b, [BotNotInChannel])
    ensures g in b.voice ==>
      s.replies == [Left] && g !in s.bot.queues && g !in s.bot.nowPlaying && g !in s.bot.voice
  {
    if g !in b.voice then Step(b, [BotNotInChannel])
    else Step(Bot(b.queues - {g}, b.nowPlaying - {g}, b.voice - {g}), [Left])
  }

  /**
   The voice client's completion callback for the song it is playing
   (natural end, skip, stop, or a playback error): the client goes idle and
   `play_next` runs. A completion is taken to belong to the current player.
   */
  function TrackEnded(b: Bot, g: GuildId, start: Song -> bool): (a: Advance)
    ensures OthersUnchanged(b, a.bot, g)
    ensures GetQueue(b, g) == [] ==>
      && a.bot.queues == b.queues && a.bot.nowPlaying == b.nowPlaying
      && a.failed == [] && !a.started
    ensures forall i :: 0 <= i < |a.failed| ==> !start(a.failed[i])
    ensures a.started ==>
      && g in b.voice && g in a.bot.nowPlaying && start(a.bot.nowPlaying[g])
      && a.bot.voice == b.voice[g := Playing]
      && GetQueue(b, g) == a.failed + [a.bot.nowPlaying[g]] + GetQueue(a.bot, g)
    ensures g in b.voice && !a.started ==>
      && a.bot.voice == b.voice[g := Idle]
      && GetQueue(b, g) == a.failed
      && GetQueue(a.bot, g) == []
  {
    var idle := if g in b.voice then b.(voice := b.voice[g := Idle]) else b;
    assert OthersUnchanged(b, idle, g);
    assert GetQueue(idle, g) == GetQueue(b, g);
    var a := PlayNext(idle, g, start);
    OthersUnchangedTransitive(b, idle, a.bot, g);
    a
  }

  // ---------------------------------------------------------------------------
  // One entry point for every event

  datatype Command =
    | PlayCommand(userInVoice: bool, lookup: Option<Info>)
    | SkipCommand
    | StopCommand
    | PauseCommand
    | ResumeCommand
    | QueueCommand
    | NowPlayingCommand
    | LeaveCommand
    | PlaybackEnded

  /** Runs one event for guild `g`; whatever it is, no other guild is affected. */
  function Apply(b: Bot, g: GuildId, c: Command, start: Song -> bool): (s: Step)
    ensures OthersUnchanged(b, s.bot, g)
  {
    match c
    case PlayCommand(inVoice, lookup) => Play(b, g, inVoice, lookup, start)
    case SkipCommand => Skip(b, g)
    case StopCommand => Stop(b, g)
    case PauseCommand => Pause(b, g)
    case ResumeCommand => Resume(b, g)
    case QueueCommand => ShowQueue(b, g)
    case NowPlayingCommand => ShowNowPlaying(b, g)
    case LeaveCommand => Leave(b, g)
    case PlaybackEnded =>
      var a := TrackEnded(b, g, start);
      Step(a.bot, Notices(a, g))
  }
}
