/**
 Properties of the music cog that relate several steps: FIFO order over a run
 of `add_to_queue` and completions, the drop-and-continue policy for songs
 that fail, the state the `stop` and `leave` commands leave behind, an
 invariant every event keeps, and independence of guilds.
 */
module MusicProperties {
  import opened Wrappers
  import opened Text
  import opened Music

  // ---------------------------------------------------------------------------
  // FIFO order and failure recovery

  /** Successive `add_to_queue` calls, one per song, in order. */
  function EnqueueAll(b: Bot, g: GuildId, songs: seq<Song>): (r: Bot)
    ensures GetQueue(r, g) == GetQueue(b, g) + songs
    ensures g in b.queues || |songs| > 0 ==> g in r.queues
    ensures r.nowPlaying == b.nowPlaying && r.voice == b.voice
    ensures OthersUnchanged(b, r, g)
    decreases |songs|
  {
    if |songs| == 0 then b
    else
      var b1 := AddToQueue(b, g, songs[0]);
      var r := EnqueueAll(b1, g, songs[1..]);
      OthersUnchangedTransitive(b, b1, r, g);
      assert songs == [songs[0]] + songs[1..];
      r
  }

  /** The songs of `q` for which `start` answers `want`, in queue order. */
  function Kept(q: seq<Song>, start: Song -> bool, want: bool): seq<Song> {
    if |q| == 0 then []
    else if start(q[0]) == want then [q[0]] + Kept(q[1..], start, want)
    else Kept(q[1..], start, want)
  }

  lemma {:induction false} KeptAppend(xs: seq<Song>, ys: seq<Song>, start: Song -> bool, want: bool)
    ensures Kept(xs + ys, start, want) == Kept(xs, start, want) + Kept(ys, start, want)
    decreases |xs|
  {
    if |xs| == 0 {
      assert xs + ys == ys;
    } else {
      assert (xs + ys)[0] == xs[0];
      assert (xs + ys)[1..] == xs[1..] + ys;
      KeptAppend(xs[1..], ys, start, want);
      if start(xs[0]) == want {
        assert Kept(xs + ys, start, want) == [xs[0]] + (Kept(xs[1..], start, want) + Kept(ys, start, want));
      }
    }
  }

  lemma {:induction false} KeptUniform(xs: seq<Song>, start: Song -> bool, want: bool)
    requires forall i :: 0 <= i < |xs| ==> start(xs[i]) == want
    ensures Kept(xs, start, want) == xs
    ensures Kept(xs, start, !want) == []
    decreases |xs|
  {
    if |xs| > 0 {
      KeptUniform(xs[1..], start, want);
      assert xs == [xs[0]] + xs[1..];
    }
  }

  /** What a run of completions delivered: songs that played, songs dropped, and the final state. */
  datatype DrainResult = DrainResult(bot: Bot, played: seq<Song>, failed: seq<Song>)

  /**
   Lets the voice client finish one song after another: each completion runs
   `play_next`, until a call starts nothing. Every completion that starts a
   song shortens the queue, which bounds the run.
   */
  function Drain(b: Bot, g: GuildId, start: Song -> bool): DrainResult
    decreases |GetQueue(b, g)|
  {
    var a := TrackEnded(b, g, start);
    if !a.started then DrainResult(a.bot, [], a.failed)
    else
      var d := Drain(a.bot, g, start);
      DrainResult(d.bot, [a.bot.nowPlaying[g]] + d.played, a.failed + d.failed)
  }

  /**
   Drop-and-continue: with a voice client, the songs that play are exactly the
   queued songs whose playback succeeds, in queue order; the ones dropped are
   exactly those that fail, in queue order, none of them retried; the run
   stops only when the queue is empty, with the client idle.
   */
  lemma {:induction false} DrainPlaysSurvivorsInOrder(b: Bot, g: GuildId, start: Song -> bool)
    requires g in b.voice
    ensures var d := Drain(b, g, start);
      && d.played == Kept(GetQueue(b, g), start, true)
      && d.failed == Kept(GetQueue(b, g), start, false)
      && GetQueue(d.bot, g) == []
      && g in d.bot.voice && d.bot.voice[g] == Idle
    decreases |GetQueue(b, g)|
  {
    var q := GetQueue(b, g);
    var a := TrackEnded(b, g, start);
    var d := Drain(b, g, start);
    if !a.started {
      assert d == DrainResult(a.bot, [], a.failed);
      assert q == a.failed;
      KeptUniform(a.failed, start, false);
    } else {
      var np := a.bot.nowPlaying[g];
      var rest := GetQueue(a.bot, g);
      var d' := Drain(a.bot, g, start);
      assert d == DrainResult(d'.bot, [np] + d'.played, a.failed + d'.failed);
      assert q == a.failed + [np] + rest && start(np) && g in a.bot.voice;
      DrainPlaysSurvivorsInOrder(a.bot, g, start);
      KeptPastFailures(a.failed, np, rest, start);
    }
  }

  /** Songs that fail, then one that plays, then the rest: only the rest is left to sort. */
  lemma KeptPastFailures(failed: seq<Song>, x: Song, ys: seq<Song>, start: Song -> bool)
    requires forall i :: 0 <= i < |failed| ==> !start(failed[i])
    requires start(x)
    ensures Kept(failed + [x] + ys, start, true) == [x] + Kept(ys, start, true)
    ensures Kept(failed + [x] + ys, start, false) == failed + Kept(ys, start, false)
  {
    assert Kept(failed + [x] + ys, start, true) == [x] + Kept(ys, start, true) by {
      KeptUniform(failed, start, false);
      KeptSplit(failed, x, ys, start, true);
      assert Kept(failed, start, true) == [];
    }
    assert Kept(failed + [x] + ys, start, false) == failed + Kept(ys, start, false) by {
      KeptUniform(failed, start, false);
      KeptSplit(failed, x, ys, start, false);
      assert Kept(failed, start, false) == failed;
    }
  }

  lemma KeptSplit(xs: seq<Song>, x: Song, ys: seq<Song>, start: Song -> bool, want: bool)
    ensures Kept(xs + [x] + ys, start, want)
         == Kept(xs, start, want) + (if start(x) == want then [x] else []) + Kept(ys, start, want)
  {
    KeptAppend(xs + [x], ys, start, want);
    KeptAppend(xs, [x], start, want);
    assert [x][1..] == [];
  }

  /**
   FIFO: songs added one by one to an empty queue, all of them playable, are
   played in the order they were added.
   */
  lemma Fifo(b: Bot, g: GuildId, songs: seq<Song>, start: Song -> bool)
    requires g in b.voice && GetQueue(b, g) == []
    requires forall s :: start(s)
    ensures Drain(EnqueueAll(b, g, songs), g, start).played == songs
  {
    var b1 := EnqueueAll(b, g, songs);
    DrainPlaysSurvivorsInOrder(b1, g, start);
    KeptUniform(songs, start, true);
  }

  /**
   One bad song among good ones: every other song still plays, in order, and
   the bad one is dropped once and never retried.
   */
  lemma OneBadSong(b: Bot, g: GuildId, k: nat, start: Song -> bool)
    requires g in b.voice && k < |GetQueue(b, g)|
    requires var q := GetQueue(b, g);
      forall i :: 0 <= i < |q| ==> (start(q[i]) <==> i != k)
    ensures var q := GetQueue(b, g);
      var d := Drain(b, g, start);
      d.played == q[..k] + q[k + 1..] && d.failed == [q[k]]
  {
    DrainPlaysSurvivorsInOrder(b, g, start);
    KeptAroundOne(GetQueue(b, g), k, start);
  }

  lemma KeptAroundOne(q: seq<Song>, k: nat, start: Song -> bool)
    requires k < |q|
    requires forall i :: 0 <= i < |q| ==> (start(q[i]) <==> i != k)
    ensures Kept(q, start, true) == q[..k] + q[k + 1..]
    ensures Kept(q, start, false) == [q[k]]
  {
    var before, after := q[..k], q[k + 1..];
    assert q == before + [q[k]] + after;
    assert forall i :: 0 <= i < |before| ==> start(before[i]) by {
      forall i | 0 <= i < |before| ensures start(before[i]) { assert before[i] == q[i]; }
    }
    assert forall i :: 0 <= i < |after| ==> start(after[i]) by {
      forall i | 0 <= i < |after| ensures start(after[i]) { assert after[i] == q[k + 1 + i]; }
    }
    KeptUniform(before, start, true);
    KeptUniform(after, start, true);
    KeptAroundFailure(before, q[k], after, start);
  }

  /** Playable songs on both sides of one that fails. */
  lemma KeptAroundFailure(xs: seq<Song>, x: Song, ys: seq<Song>, start: Song -> bool)
    requires Kept(xs, start, true) == xs && Kept(xs, start, false) == []
    requires Kept(ys, start, true) == ys && Kept(ys, start, false) == []
    requires !start(x)
    ensures Kept(xs + [x] + ys, start, true) == xs + ys
    ensures Kept(xs + [x] + ys, start, false) == [x]
  {
    KeptSplit(xs, x, ys, start, true);
    KeptSplit(xs, x, ys, start, false);
    assert xs + [] + ys == xs + ys;
    assert [] + [x] + [] == [x];
  }

  // ---------------------------------------------------------------------------
  // Reading does not create state

  /**
   Reading the queue of a guild without one (listing it, or a completion
   that finds it empty) creates no queue entry and changes nothing else.
   */
  lemma ReadingMissingQueueCreatesNothing(b: Bot, g: GuildId, start: Song -> bool)
    requires g !in b.queues
    ensures GetQueue(b, g) == []
    ensures ShowQueue(b, g).bot == b && ShowQueue(b, g).replies == [QueueEmpty]
    ensures PlayNext(b, g, start) == Advance(b, [], false)
    ensures g !in TrackEnded(b, g, start).bot.queues
  {
  }

  // ---------------------------------------------------------------------------
  // The queue listing

  lemma ListingHeaderIsOneLine()
    ensures '\n' !in ListingHeader
  {
  }

  /**
   The listing, cut at newlines, is the header followed by one line per queued
   song, in queue order, the i-th reading "i. <title>" counting from 1.
   */
  lemma ListingReadsBack(q: seq<Song>)
    requires forall i :: 0 <= i < |q| ==> '\n' !in q[i].title
    ensures var lines := Split(QueueMessage(q), '\n');
      && |lines| == |q| + 1
      && lines[0] == ListingHeader
      && forall i :: 0 <= i < |q| ==> lines[i + 1] == NatToString(i + 1) + ". " + q[i].title
  {
    var parts := [ListingHeader] + QueueLines(q);
    forall i | 0 <= i < |parts|
      ensures '\n' !in parts[i]
    {
      if i == 0 {
        ListingHeaderIsOneLine();
      } else {
        var n := NatToString(i);
        DigitsAvoid(n, '\n');
        assert parts[i] == n + ". " + q[i - 1].title;
      }
    }
    SplitJoin(parts, '\n');
  }

  /** The number at the head of each listing line reads back as the song's position. */
  lemma ListingNumbersReadBack(q: seq<Song>, i: nat)
    requires i < |q|
    ensures var line := QueueLines(q)[i];
      var n := NatToString(i + 1);
      && line[..|n|] == n
      && ParseDigits(n) == i + 1
      && line[|n| + 2..] == q[i].title
  {
    ParseNatToString(i + 1);
  }

  // ---------------------------------------------------------------------------
  // stop and leave

  /** `stop` twice in a row leaves the same state, and sends the same reply, as once. */
  lemma StopIdempotent(b: Bot, g: GuildId)
    ensures Stop(Stop(b, g).bot, g) == Stop(b, g)
  {
  }

  /** After `leave`, a second `leave` is refused and changes nothing. */
  lemma LeaveTwice(b: Bot, g: GuildId)
    ensures Leave(Leave(b, g).bot, g).bot == Leave(b, g).bot
    ensures g in b.voice ==> Leave(Leave(b, g).bot, g).replies == [BotNotInChannel]
  {
  }

  /**
   The completion that a stopped voice client still delivers, when it arrives
   right after `stop`, finds the queue empty: it changes nothing and sends
   nothing, so nothing cleared is resurrected.
   */
  lemma CompletionAfterStopIsNoOp(b: Bot, g: GuildId, start: Song -> bool)
    requires g in b.voice
    ensures var stopped := Stop(b, g).bot;
      TrackEnded(stopped, g, start) == Advance(stopped, [], false)
  {
  }

  /** Likewise right after `leave`: the late completion finds no queue and no voice client. */
  lemma CompletionAfterLeaveIsNoOp(b: Bot, g: GuildId, start: Song -> bool)
    requires g in b.voice
    ensures var left := Leave(b, g).bot;
      TrackEnded(left, g, start) == Advance(left, [], false)
  {
  }

  // ---------------------------------------------------------------------------
  // An invariant of every event

  /** A voice client that is playing or paused always has a song recorded as now playing. */
  ghost predicate Consistent(b: Bot) {
    forall h :: h in b.voice && b.voice[h] != Idle ==> h in b.nowPlaying
  }

  lemma ConsistentAtGuild(b1: Bot, b2: Bot, g: GuildId)
    requires Consistent(b1) && OthersUnchanged(b1, b2, g)
    requires g in b2.voice && b2.voice[g] != Idle ==> g in b2.nowPlaying
    ensures Consistent(b2)
  {
    forall h | h in b2.voice && b2.voice[h] != Idle
      ensures h in b2.nowPlaying
    {
      if h != g {
        assert SameEntry(b1.voice, b2.voice, h) && SameEntry(b1.nowPlaying, b2.nowPlaying, h);
      }
    }
  }

  lemma PlayNextKeepsConsistent(b: Bot, g: GuildId, start: Song -> bool)
    requires Consistent(b)
    ensures Consistent(PlayNext(b, g, start).bot)
  {
    var a := PlayNext(b, g, start);
    ConsistentAtGuild(b, a.bot, g);
  }

  /** Every command and every completion keeps `Consistent`. */
  lemma ApplyKeepsConsistent(b: Bot, g: GuildId, c: Command, start: Song -> bool)
    requires Consistent(b)
    ensures Consistent(Apply(b, g, c, start).bot)
  {
    var s := Apply(b, g, c, start);
    match c {
      case PlayCommand(inVoice, lookup) =>
        if inVoice && MakeSongOf(lookup).Some? {
          var connected := if g in b.voice then b else b.(voice := b.voice[g := Idle]);
          ConsistentAtGuild(b, connected, g);
          var queued := AddToQueue(connected, g, MakeSongOf(lookup).value);
          ConsistentAtGuild(connected, queued, g);
          if connected.voice[g] != Playing {
            PlayNextKeepsConsistent(queued, g, start);
          }
        } else {
          ConsistentAtGuild(b, s.bot, g);
        }
      case PlaybackEnded =>
        var idle := if g in b.voice then b.(voice := b.voice[g := Idle]) else b;
        ConsistentAtGuild(b, idle, g);
        PlayNextKeepsConsistent(idle, g, start);
      case _ =>
        ConsistentAtGuild(b, s.bot, g);
    }
  }

  /**
   The converse fails: when the last song finishes, the client goes idle
   while the finished song stays recorded as now playing.
   */
  lemma IdleWithStaleNowPlaying(b: Bot, g: GuildId, start: Song -> bool)
    requires Consistent(b)
    requires g in b.voice && b.voice[g] == Playing && GetQueue(b, g) == []
    ensures var a := TrackEnded(b, g, start).bot;
      a.voice[g] == Idle && g in a.nowPlaying && a.nowPlaying[g] == b.nowPlaying[g]
  {
  }

  /**
   Three playable songs queued on an idle client: the first starts, the second
   follows when it ends, a skip moves on to the third, and when that one ends
   the client is idle with an empty queue (the third song stays recorded as
   now playing).
   */
  lemma SkipScenario(b0: Bot, g: GuildId, x: Song, y: Song, z: Song)
    requires g in b0.voice && b0.voice[g] == Idle && GetQueue(b0, g) == []
    ensures
      var always := (s: Song) => true;
      var a1 := PlayNext(EnqueueAll(b0, g, [x, y, z]), g, always);
      var a2 := TrackEnded(a1.bot, g, always);
      var k := Skip(a2.bot, g);
      var a3 := TrackEnded(k.bot, g, always);
      var a4 := TrackEnded(a3.bot, g, always);
      && a1.started && a1.bot.nowPlaying[g] == x
      && a2.started && a2.bot.nowPlaying[g] == y
      && k.replies == [Skipped]
      && a3.started && a3.bot.nowPlaying[g] == z
      && !a4.started && a4.bot.voice[g] == Idle && GetQueue(a4.bot, g) == []
      && a4.bot.nowPlaying[g] == z
  {
    // The queue at each step of the trace, for the reader; the contracts of
    // EnqueueAll, PlayNext and TrackEnded already give these.
    var always := (s: Song) => true;
    var b1 := EnqueueAll(b0, g, [x, y, z]);
    assert GetQueue(b1, g) == [x, y, z];
    var a1 := PlayNext(b1, g, always);
    assert GetQueue(a1.bot, g) == [y, z];
    var a2 := TrackEnded(a1.bot, g, always);
    assert GetQueue(a2.bot, g) == [z];
    var k := Skip(a2.bot, g);
    var a3 := TrackEnded(k.bot, g, always);
    assert GetQueue(a3.bot, g) == [];
  }

  // ---------------------------------------------------------------------------
  // Guilds are independent

  /** The two states agree on everything about guild `g`. */
  ghost predicate SameGuild(b1: Bot, b2: Bot, g: GuildId) {
    SameEntry(b1.queues, b2.queues, g) && SameEntry(b1.nowPlaying, b2.nowPlaying, g) && SameEntry(b1.voice, b2.voice, g)
  }

  lemma {:induction false} PlayNextIsLocal(b1: Bot, b2: Bot, g: GuildId, start: Song -> bool)
    requires SameGuild(b1, b2, g)
    ensures var a1, a2 := PlayNext(b1, g, start), PlayNext(b2, g, start);
      SameGuild(a1.bot, a2.bot, g) && a1.failed == a2.failed && a1.started == a2.started
    decreases |GetQueue(b1, g)|
  {
    var q := GetQueue(b1, g);
    assert GetQueue(b2, g) == q;
    if q != [] && (g in b1.voice) && !start(q[0]) {
      var p1 := b1.(queues := b1.queues[g := q[1..]], nowPlaying := b1.nowPlaying[g := q[0]]);
      var p2 := b2.(queues := b2.queues[g := q[1..]], nowPlaying := b2.nowPlaying[g := q[0]]);
      PlayNextIsLocal(p1, p2, g, start);
    }
  }

  /** What an event does to guild `g`, and what it replies, depends only on guild `g`. */
  lemma PlayIsLocal(b1: Bot, b2: Bot, g: GuildId, inVoice: bool, lookup: Option<Info>, start: Song -> bool)
    requires SameGuild(b1, b2, g)
    ensures var s1, s2 := Play(b1, g, inVoice, lookup, start), Play(b2, g, inVoice, lookup, start);
      SameGuild(s1.bot, s2.bot, g) && s1.replies == s2.replies
  {
    if inVoice && MakeSongOf(lookup).Some? {
      var song := MakeSongOf(lookup).value;
      var c1 := if g in b1.voice then b1 else b1.(voice := b1.voice[g := Idle]);
      var c2 := if g in b2.voice then b2 else b2.(voice := b2.voice[g := Idle]);
      assert c1.voice[g] == c2.voice[g];
      var q1, q2 := AddToQueue(c1, g, song), AddToQueue(c2, g, song);
      assert SameGuild(q1, q2, g);
      if c1.voice[g] != Playing {
        PlayNextIsLocal(q1, q2, g, start);
        var a1, a2 := PlayNext(q1, g, start), PlayNext(q2, g, start);
        assert Notices(a1, g) == Notices(a2, g);
      }
    }
  }

  lemma TrackEndedIsLocal(b1: Bot, b2: Bot, g: GuildId, start: Song -> bool)
    requires SameGuild(b1, b2, g)
    ensures var a1, a2 := TrackEnded(b1, g, start), TrackEnded(b2, g, start);
      SameGuild(a1.bot, a2.bot, g) && Notices(a1, g) == Notices(a2, g)
  {
    var i1 := if g in b1.voice then b1.(voice := b1.voice[g := Idle]) else b1;
    var i2 := if g in b2.voice then b2.(voice := b2.voice[g := Idle]) else b2;
    PlayNextIsLocal(i1, i2, g, start);
  }

  /** What an event does to guild `g`, and what it replies, depends only on guild `g`. */
  lemma ApplyIsLocal(b1: Bot, b2: Bot, g: GuildId, c: Command, start: Song -> bool)
    requires SameGuild(b1, b2, g)
    ensures var s1, s2 := Apply(b1, g, c, start), Apply(b2, g, c, start);
      SameGuild(s1.bot, s2.bot, g) && s1.replies == s2.replies
  {
    match c {
      case PlayCommand(inVoice, lookup) => PlayIsLocal(b1, b2, g, inVoice, lookup, start);
      case PlaybackEnded => TrackEndedIsLocal(b1, b2, g, start);
      case QueueCommand => assert GetQueue(b1, g) == GetQueue(b2, g);
      case _ =>
    }
  }

  lemma MapsAgree<V>(m1: map<GuildId, V>, m2: map<GuildId, V>)
    requires forall h :: SameEntry(m1, m2, h)
    ensures m1 == m2
  {
    forall h ensures h in m1 <==> h in m2 {
      assert SameEntry(m1, m2, h);
    }
    forall h | h in m1 ensures m1[h] == m2[h] {
      assert SameEntry(m1, m2, h);
    }
  }

  /**
   Events for two different guilds commute: in either order they lead to the
   same state, and each sends the replies it would send alone.
   */
  lemma EventsOnDifferentGuildsCommute(b: Bot, g1: GuildId, c1: Command, g2: GuildId, c2: Command, start: Song -> bool)
    requires g1 != g2
    ensures var s1, s2 := Apply(b, g1, c1, start), Apply(b, g2, c2, start);
      var s12, s21 := Apply(s1.bot, g2, c2, start), Apply(s2.bot, g1, c1, start);
      && s12.bot == s21.bot
      && s12.replies == s2.replies
      && s21.replies == s1.replies
  {
    var s1, s2 := Apply(b, g1, c1, start), Apply(b, g2, c2, start);
    var s12, s21 := Apply(s1.bot, g2, c2, start), Apply(s2.bot, g1, c1, start);
    UnchangedGuild(b, s1.bot, g1, g2);
    UnchangedGuild(b, s2.bot, g2, g1);
    ApplyIsLocal(b, s1.bot, g2, c2, start);
    ApplyIsLocal(b, s2.bot, g1, c1, start);
    DisjointUpdatesAgree(b, s1.bot, s2.bot, s12.bot, s21.bot, g1, g2);
  }

  /**
   Two updates confined to different guilds, applied in either order: when
   each does the same to its own guild in both orders, the results agree.
   */
  lemma DisjointUpdatesAgree(b: Bot, b1: Bot, b2: Bot, b12: Bot, b21: Bot, g1: GuildId, g2: GuildId)
    requires g1 != g2
    requires OthersUnchanged(b, b1, g1) && OthersUnchanged(b1, b12, g2)
    requires OthersUnchanged(b, b2, g2) && OthersUnchanged(b2, b21, g1)
    requires SameGuild(b2, b12, g2) && SameGuild(b1, b21, g1)
    ensures b12 == b21
  {
    forall h ensures SameGuild(b12, b21, h) {
      if h == g1 {
        UnchangedGuild(b1, b12, g2, g1);
      } else if h == g2 {
        UnchangedGuild(b2, b21, g1, g2);
      } else {
        UnchangedGuild(b, b1, g1, h);
        UnchangedGuild(b1, b12, g2, h);
        UnchangedGuild(b, b2, g2, h);
        UnchangedGuild(b2, b21, g1, h);
      }
    }
    BotsAgree(b12, b21);
  }

  lemma UnchangedGuild(b1: Bot, b2: Bot, g: GuildId, h: GuildId)
    requires OthersUnchanged(b1, b2, g) && h != g
    ensures SameGuild(b1, b2, h)
  {
  }

  lemma BotsAgree(b1: Bot, b2: Bot)
    requires forall h :: SameGuild(b1, b2, h)
    ensures b1 == b2
  {
    forall h
      ensures SameEntry(b1.queues, b2.queues, h)
      ensures SameEntry(b1.nowPlaying, b2.nowPlaying, h)
      ensures SameEntry(b1.voice, b2.voice, h)
    {
      assert SameGuild(b1, b2, h);
    }
    MapsAgree(b1.queues, b2.queues);
    MapsAgree(b1.nowPlaying, b2.nowPlaying);
    MapsAgree(b1.voice, b2.voice);
  }
}
