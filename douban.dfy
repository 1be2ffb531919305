/**
 * The current Douban FM engine: a channel catalog, a queue of tracks fetched from the
 * radio service, the track now playing, and a dispatcher that applies one integer command
 * (or one audio-pipeline event) at a time.
 *
 * The engine's state is the class DoubanFM. Each state-changing method is specified by a
 * function on a value snapshot of that state (Fm), and the lemmas at the end of the module
 * state what those functions promise. Server answers are parameters: None stands for a
 * transport failure, Some(xs) for a decoded answer (an undecodable body decodes to []).
 */
module Douban {
  import opened Wrappers
  import opened Text
  import Playback

  // ---------------------------------------------------------------- data model

  /** The refill operation codes, sent as the "type" query parameter. */
  datatype Op = OpBypass | OpEnd | OpNew | OpLast | OpSkip | OpUnlike | OpLike
  {
    function Code(): string
    {
      match this
      case OpBypass => "b"
      case OpEnd => "e"
      case OpNew => "n"
      case OpLast => "p"
      case OpSkip => "s"
      case OpUnlike => "u"
      case OpLike => "r"
    }
  }

  /** A channel id as decoded from the service: an int, a string, or any other JSON value. */
  datatype ChannelId = IntId(n: int) | StrId(s: string) | OtherId

  datatype Channel = Channel(id: ChannelId, name: string, intro: string)

  /** A track, restricted to the fields the engine reads or shows. */
  datatype Song = Song(album: string, artist: string, url: string, company: string,
                       title: string, pubTime: string, sid: string, kbps: int,
                       albumTitle: string, like: int)

  /** The zero song, which next() returns on an empty queue. */
  const NoSong := Song("", "", "", "", "", "", "", 0, "", 0)

  datatype User = User(id: string, name: string, email: string, token: string, expire: string)

  const Anonymous := User("", "", "", "", "")

  /** A channel entry from the logged-in user's favourite or recommended list. */
  datatype LoginChannel = LoginChannel(intro: string, name: string, id: int)

  /** The parameters of one refill request that depend on the engine's state. */
  datatype Refill = Refill(op: Op, channel: string, sid: string, userId: string)

  /** A message from the audio pipeline's bus. */
  datatype Event = EndOfStream | StreamError | OtherMessage

  /** The seed entry every catalog starts from. */
  const PersonalChannel := Channel(IntId(0), "私人频道", "")

  /** The entry a successful login puts in front of the catalog. */
  const RedStarChannel := Channel(IntId(-3), "红星兆赫", "")

  /** A snapshot of the engine: its fields, the audio instructions and the refills sent. */
  datatype Fm = Fm(channels: seq<Channel>, channel: int, paused: bool, loop: bool,
                   playlist: seq<Song>, playing: Song, user: User,
                   audio: seq<Playback.Instr>, sent: seq<Refill>)

  /** The state NewDouban builds: paused, channel 2, and the one-entry catalog. */
  function Initial(): Fm
  {
    Fm([PersonalChannel], 2, true, false, [], NoSong, Anonymous, [], [])
  }

  /** The current channel number designates a catalog entry (so a refill cannot panic). */
  predicate ChannelOk(s: Fm)
  {
    1 <= s.channel <= |s.channels|
  }

  // ---------------------------------------------------------------- channel ids

  /** channel.ChannelId(): the canonical string form of an id. */
  function ChannelIdText(id: ChannelId): string
  {
    match id
    case IntId(n) => Itoa(n)
    case StrId(s) => s
    case OtherId => "0"
  }

  /**
   * A string id is its own canonical form, so normalising is idempotent; an int id and the
   * string of its digits normalise alike; distinct int ids stay distinct and the canonical
   * form of an int id parses back to it; any other representation reads as id 0.
   */
  lemma ChannelIdCanonical(id: ChannelId, m: int, n: int)
    ensures ChannelIdText(StrId(ChannelIdText(id))) == ChannelIdText(id)
    ensures ChannelIdText(IntId(n)) == ChannelIdText(StrId(Itoa(n)))
    ensures ParseDecimal(ChannelIdText(IntId(n))) == Some(n)
    ensures ChannelIdText(IntId(m)) == ChannelIdText(IntId(n)) ==> m == n
    ensures ChannelIdText(OtherId) == ChannelIdText(IntId(0))
  {
    ParseItoa(n);
    if ChannelIdText(IntId(m)) == ChannelIdText(IntId(n)) {
      ItoaInjective(m, n);
    }
  }

  // ---------------------------------------------------------------- queue and refills

  /** next(): pop the head of the queue into playing and return it; no change on an empty queue. */
  function Popped(s: Fm): (r: (Fm, Song))
    ensures r.0.channels == s.channels && r.0.channel == s.channel && r.0.user == s.user
  {
    if |s.playlist| > 0 then (s.(playing := s.playlist[0], playlist := s.playlist[1..]), s.playlist[0])
    else (s, NoSong)
  }

  /** gst.NewSource(next().Url): pop the head and hand its stream to the audio pipeline. */
  function PlayedNext(s: Fm): (t: Fm)
    ensures t.channels == s.channels && t.channel == s.channel && t.user == s.user
  {
    var (t, song) := Popped(s);
    t.(audio := t.audio + Playback.NewSourceInstrs(song.url))
  }

  /** The state-dependent parameters of newPlaylist's request. */
  function RefillRequest(s: Fm, op: Op): Refill
    requires ChannelOk(s)
  {
    Refill(op, ChannelIdText(s.channels[s.channel - 1].id), s.playing.sid, s.user.id)
  }

  /**
   * newPlaylist(op) given the server's answer: the request is sent, the queue is replaced
   * by the answer when the answer holds a song, and the number of songs is returned.
   */
  function Refilled(s: Fm, op: Op, reply: Option<seq<Song>>): (r: (Fm, nat))
    requires ChannelOk(s)
    ensures r.0.channels == s.channels && r.0.channel == s.channel && r.0.user == s.user
  {
    var t := s.(sent := s.sent + [RefillRequest(s, op)]);
    match reply
    case None => (t, 0)
    case Some(songs) => if |songs| > 0 then (t.(playlist := songs), |songs|) else (t, 0)
  }

  // ---------------------------------------------------------------- commands and events

  /** The commands the dispatcher can apply without indexing outside the catalog. */
  predicate DispatchSafe(s: Fm, cmd: int)
  {
    if cmd == Playback.CmdStop || cmd == Playback.CmdPlay || cmd == Playback.CmdLoop then true
    else if cmd == Playback.CmdNext then |s.playlist| >= 2 || ChannelOk(s)
    else if cmd == Playback.CmdSkip || cmd == Playback.CmdLike
         || cmd == Playback.CmdUnlike || cmd == Playback.CmdTrash then ChannelOk(s)
    else cmd >= 1
  }

  /** CmdNext: play the next track, then ask for more (OpLast) if the queue is now empty. */
  function AdvancedNext(s: Fm, lastReply: Option<seq<Song>>): (t: Fm)
    requires |s.playlist| >= 2 || ChannelOk(s)
    ensures t.channels == s.channels && t.channel == s.channel && t.user == s.user
  {
    var t := PlayedNext(s);
    if |t.playlist| == 0 then Refilled(t, OpLast, lastReply).0 else t
  }

  /** Skip, Trash and a channel change: refill with op first, then play the next track. */
  function RefilledAndPlayed(s: Fm, op: Op, reply: Option<seq<Song>>): (t: Fm)
    requires ChannelOk(s)
    ensures t.channels == s.channels && t.channel == s.channel && t.user == s.user
  {
    PlayedNext(Refilled(s, op, reply).0)
  }

  /** Like and Unlike: refill with op, then set the playing track's like flag locally. */
  function Rated(s: Fm, op: Op, reply: Option<seq<Song>>, like: int): (t: Fm)
    requires ChannelOk(s)
    ensures t.channels == s.channels && t.channel == s.channel && t.user == s.user
  {
    var t := Refilled(s, op, reply).0;
    t.(playing := t.playing.(like := like))
  }

  /**
   * One iteration of cmdLoop. reply answers the command's own refill (Skip, Like, Unlike,
   * Trash, channel change); lastReply answers the refill Next issues when the queue runs dry.
   */
  function Dispatched(s: Fm, cmd: int, reply: Option<seq<Song>>, lastReply: Option<seq<Song>>): Fm
    requires DispatchSafe(s, cmd)
  {
    if cmd == Playback.CmdStop then
      s.(audio := s.audio + [Playback.Stop], paused := true)
    else if cmd == Playback.CmdPlay then
      s.(audio := s.audio + [if s.paused then Playback.Play else Playback.Pause], paused := !s.paused)
    else if cmd == Playback.CmdNext then AdvancedNext(s, lastReply)
    else if cmd == Playback.CmdLoop then s.(loop := !s.loop)
    else if cmd == Playback.CmdSkip then RefilledAndPlayed(s, OpSkip, reply)
    else if cmd == Playback.CmdLike then Rated(s, OpLike, reply, 1)
    else if cmd == Playback.CmdUnlike then Rated(s, OpUnlike, reply, 0)
    else if cmd == Playback.CmdTrash then RefilledAndPlayed(s, OpBypass, reply)
    else if cmd <= |s.channels| then RefilledAndPlayed(s.(channel := cmd), OpNew, reply)
    else s
  }

  /** The events the handler can process without indexing outside the catalog. */
  predicate HandleSafe(s: Fm, ev: Event)
  {
    ev == EndOfStream ==> if s.loop then |s.playlist| > 0 || ChannelOk(s) else ChannelOk(s)
  }

  /**
   * onMessage: end of stream replays the track when looping, otherwise reports the end and
   * plays the next track; either way an empty queue asks for more. An error only stops.
   */
  function Handled(s: Fm, ev: Event, endReply: Option<seq<Song>>, lastReply: Option<seq<Song>>): Fm
    requires HandleSafe(s, ev)
  {
    match ev
    case EndOfStream =>
      var t := if s.loop then s.(audio := s.audio + Playback.NewSourceInstrs(s.playing.url))
               else RefilledAndPlayed(s, OpEnd, endReply);
      if |t.playlist| == 0 then Refilled(t, OpLast, lastReply).0 else t
    case StreamError => s.(audio := s.audio + [Playback.Stop])
    case OtherMessage => s
  }

  // ---------------------------------------------------------------- catalog and login

  /** getChannels: the catalog is replaced only by a non-empty answer; the answer's size is returned. */
  function WithCatalog(s: Fm, reply: Option<seq<Channel>>): (Fm, nat)
  {
    match reply
    case None => (s, 0)
    case Some(chs) => (if |chs| > 0 then s.(channels := chs) else s, |chs|)
  }

  function FromLogin(c: LoginChannel): Channel
  {
    Channel(IntId(c.id), c.name, c.intro)
  }

  function FromLoginAll(cs: seq<LoginChannel>): (r: seq<Channel>)
    ensures |r| == |cs| && forall i :: 0 <= i < |cs| ==> r[i] == FromLogin(cs[i])
  {
    seq(|cs|, i requires 0 <= i < |cs| => FromLogin(cs[i]))
  }

  /** getLoginChls: favourites, then recommendations, appended as they come. */
  function WithLoginChannels(s: Fm, reply: Option<(seq<LoginChannel>, seq<LoginChannel>)>): Fm
  {
    match reply
    case None => s
    case Some((favs, recs)) => s.(channels := s.channels + FromLoginAll(favs) + FromLoginAll(recs))
  }

  /**
   * Login after the credentials are read: a logged-in engine stays as it is; otherwise the
   * decoded answer becomes the user, and a user with an id gets the extra channel in front
   * of the catalog followed by the login channel lists.
   */
  function LoggedIn(s: Fm, loginReply: Option<User>,
                    chlsReply: Option<(seq<LoginChannel>, seq<LoginChannel>)>): Fm
  {
    if |s.user.id| > 0 then s
    else
      var t := if loginReply.Some? then s.(user := loginReply.value) else s;
      if |t.user.id| > 0 then WithLoginChannels(t.(channels := [RedStarChannel] + t.channels), chlsReply)
      else t
  }

  // ---------------------------------------------------------------- text views

  /** The concatenation of lines, first to last. */
  function Concat(lines: seq<string>): string
  {
    if lines == [] then "" else Concat(lines[..|lines| - 1]) + lines[|lines| - 1]
  }

  /** Append one line per song, in order, to text, which holds the lines done so far. */
  method AppendSongLines(text: string, done: seq<string>, songs: seq<Song>) returns (r: string)
    requires text == Concat(done)
    ensures r == Concat(done + SongLines(songs))
  {
    var lines := done + SongLines(songs);
    assert lines[..|done|] == done;
    r := text;
    var i := 0;
    while i < |songs|
      invariant 0 <= i <= |songs|
      invariant r == Concat(lines[..|done| + i])
    {
      ConcatStep(lines, |done| + i);
      assert lines[|done| + i] == SongLine(songs[i]);
      r := r + SongLine(songs[i]);
      i := i + 1;
    }
    assert lines[..|done| + i] == lines;
  }

  /** Concatenating one more line extends the text by that line. */
  lemma ConcatStep(lines: seq<string>, i: int)
    requires 0 <= i < |lines|
    ensures Concat(lines[..i + 1]) == Concat(lines[..i]) + lines[i]
  {
    assert lines[..i + 1][..i] == lines[..i];
  }

  /** "%2d + %s %s\n" for the current channel, "%2d - %s %s\n" for the others. */
  function ChannelLine(n: int, ch: Channel, current: bool): string
  {
    PadLeft(Itoa(n), 2) + ChannelTail(ch, current)
  }

  /** What follows the channel number: the marker, the name, a space, the intro, a line break. */
  function ChannelTail(ch: Channel, current: bool): string
  {
    (if current then " + " else " - ") + ch.name + " " + ch.intro + "\n"
  }

  /** The position of the '+' / '-' marker in the line of channel number n. */
  function MarkerAt(n: int): nat
  {
    |PadLeft(Itoa(n), 2)| + 1
  }

  function ChannelLines(chs: seq<Channel>, cur: int): (lines: seq<string>)
    ensures |lines| == |chs|
  {
    seq(|chs|, i requires 0 <= i < |chs| => ChannelLine(i + 1, chs[i], i + 1 == cur))
  }

  /** "%s - %s (%s)\n" */
  function SongLine(s: Song): string
  {
    s.title + " - " + s.artist + " (" + s.pubTime + ")\n"
  }

  function SongLines(songs: seq<Song>): (lines: seq<string>)
    ensures |lines| == |songs|
  {
    seq(|songs|, i requires 0 <= i < |songs| => SongLine(songs[i]))
  }

  /** The playing track's line when it has a song id, then one line per queued track. */
  function PlaylistLines(playing: Song, playlist: seq<Song>): seq<string>
  {
    (if |playing.sid| > 0 then [SongLine(playing)] else []) + SongLines(playlist)
  }

  /** The album link of song.String: a relative album path gets the site prefix. */
  function AlbumUrl(album: string): (u: string)
    ensures HasPrefix(u, "http") && HasSuffix(u, album)
  {
    if HasPrefix(album, "http") then album else "http://www.douban.com" + album
  }

  /** "%10s: %s\n" */
  function Field(key: string, value: string): string
  {
    PadLeft(key, 10) + ": " + value + "\n"
  }

  /** userInfo(): "%s \t%s" of the user's id and name. */
  function UserInfo(u: User): (r: string)
    ensures |r| == |u.id| + 2 + |u.name|
    ensures HasPrefix(r, u.id) && HasSuffix(r, u.name) && r[|u.id|..|u.id| + 2] == " \t"
  {
    u.id + " \t" + u.name
  }

  /** The keys song.String() shows, in order (the rating line is left out). */
  const SongKeys: seq<string> := ["Title", "Artist", "Alum", "Public", "Company", "Url", "Kbps", "Like"]

  /** The values shown against SongKeys: the album as its link, the numbers in decimal. */
  function SongValues(s: Song): (vals: seq<string>)
    ensures |vals| == |SongKeys|
  {
    [s.title, s.artist, s.albumTitle, s.pubTime, s.company, AlbumUrl(s.album), Itoa(s.kbps), Itoa(s.like)]
  }

  /** One "%10s: %s\n" line per key and value. */
  function FieldLines(keys: seq<string>, vals: seq<string>): (lines: seq<string>)
    requires |keys| == |vals|
    ensures |lines| == |keys|
  {
    seq(|keys|, i requires 0 <= i < |keys| => Field(keys[i], vals[i]))
  }

  /** The lines of song.String() in order. */
  function SongFieldLines(s: Song): (lines: seq<string>)
    ensures |lines| == 8
  {
    FieldLines(SongKeys, SongValues(s))
  }

  /** No text field that song.String() shows holds a line break. */
  predicate PlainText(s: Song)
  {
    && '\n' !in s.title && '\n' !in s.artist && '\n' !in s.albumTitle
    && '\n' !in s.pubTime && '\n' !in s.company && '\n' !in s.album
  }

  /** song.String(), without the rating line. */
  function SongText(s: Song): string
  {
    Concat(SongFieldLines(s))
  }

  // ---------------------------------------------------------------- properties

  /**
   * next() on a non-empty queue moves the head to playing, returns it and keeps exactly the
   * tail, so the old queue is the returned song followed by the new one; on an empty queue it
   * returns the zero song and changes nothing.
   */
  lemma NextPopsHead(s: Fm)
    ensures |s.playlist| > 0 ==>
              var (t, song) := Popped(s);
              song == t.playing == s.playlist[0] && [song] + t.playlist == s.playlist
              && t == s.(playing := song, playlist := t.playlist)
    ensures |s.playlist| == 0 ==> Popped(s) == (s, NoSong)
  {
    if |s.playlist| > 0 {
      var (t, song) := Popped(s);
      assert [song] + t.playlist == s.playlist;
    }
  }

  /**
   * For every op, newPlaylist replaces the queue wholesale exactly when the answer holds at
   * least one song and returns the answer's size; a transport error returns 0; the queue is
   * never otherwise touched, the request for the current channel and track is always sent,
   * and nothing else changes.
   */
  lemma RefillReplacesOnlyWhenNonEmpty(s: Fm, op: Op, reply: Option<seq<Song>>)
    requires ChannelOk(s)
    ensures var (t, n) := Refilled(s, op, reply);
            && t.playlist == (if reply.Some? && |reply.value| > 0 then reply.value else s.playlist)
            && n == (if reply.Some? then |reply.value| else 0)
            && (n > 0 <==> reply.Some? && reply.value != [])
            && t.sent == s.sent + [Refill(op, ChannelIdText(s.channels[s.channel - 1].id),
                                          s.playing.sid, s.user.id)]
            && t.(playlist := s.playlist, sent := s.sent) == s
  {
  }

  /** getChannels replaces the catalog only with a non-empty answer, and returns its size. */
  lemma CatalogReplacedOnlyWhenNonEmpty(s: Fm, reply: Option<seq<Channel>>)
    ensures var (t, n) := WithCatalog(s, reply);
            && t.channels == (if reply.Some? && |reply.value| > 0 then reply.value else s.channels)
            && n == (if reply.Some? then |reply.value| else 0)
            && t.(channels := s.channels) == s
  {
  }

  /**
   * The catalog is never empty: the initial catalog is the seed entry, no refresh leaves a
   * non-empty catalog empty, and a login only adds entries.
   */
  lemma CatalogNeverEmpty(s: Fm, catalogReply: Option<seq<Channel>>, loginReply: Option<User>,
                          chlsReply: Option<(seq<LoginChannel>, seq<LoginChannel>)>)
    ensures Initial().channels == [PersonalChannel]
    ensures |s.channels| >= 1 ==> |WithCatalog(s, catalogReply).0.channels| >= 1
    ensures |LoggedIn(s, loginReply, chlsReply).channels| >= |s.channels|
  {
  }

  /** Commands never touch the catalog or the user. */
  lemma CommandsKeepCatalog(s: Fm, cmd: int, reply: Option<seq<Song>>, lastReply: Option<seq<Song>>)
    requires DispatchSafe(s, cmd)
    ensures Dispatched(s, cmd, reply, lastReply).channels == s.channels
    ensures Dispatched(s, cmd, reply, lastReply).user == s.user
  {
    var t := Dispatched(s, cmd, reply, lastReply);
    if cmd == Playback.CmdStop || cmd == Playback.CmdPlay || cmd == Playback.CmdLoop {
    } else if cmd == Playback.CmdNext {
      assert t == AdvancedNext(s, lastReply);
    } else if cmd == Playback.CmdSkip {
      assert t == RefilledAndPlayed(s, OpSkip, reply);
    } else if cmd == Playback.CmdLike {
      assert t == Rated(s, OpLike, reply, 1);
    } else if cmd == Playback.CmdUnlike {
      assert t == Rated(s, OpUnlike, reply, 0);
    } else if cmd == Playback.CmdTrash {
      assert t == RefilledAndPlayed(s, OpBypass, reply);
    } else if cmd <= |s.channels| {
      assert t == RefilledAndPlayed(s.(channel := cmd), OpNew, reply);
    } else {
      assert t == s;
    }
  }

  /** Events never touch the catalog, the channel number or the user. */
  lemma EventsKeepCatalog(s: Fm, ev: Event, endReply: Option<seq<Song>>, lastReply: Option<seq<Song>>)
    requires HandleSafe(s, ev)
    ensures Handled(s, ev, endReply, lastReply).channels == s.channels
    ensures Handled(s, ev, endReply, lastReply).channel == s.channel
    ensures Handled(s, ev, endReply, lastReply).user == s.user
  {
  }

  /**
   * Once the channel number designates a catalog entry, it keeps doing so through every
   * command, event and login: only a channel-number command changes it, and only to a number
   * within the catalog.
   */
  lemma ChannelStaysInCatalog(s: Fm, cmd: int, ev: Event, reply: Option<seq<Song>>,
                              lastReply: Option<seq<Song>>, loginReply: Option<User>,
                              chlsReply: Option<(seq<LoginChannel>, seq<LoginChannel>)>)
    requires ChannelOk(s)
    ensures DispatchSafe(s, cmd) ==> ChannelOk(Dispatched(s, cmd, reply, lastReply))
    ensures DispatchSafe(s, cmd) && Dispatched(s, cmd, reply, lastReply).channel != s.channel ==>
              !IsCommandCase(cmd) && cmd <= |s.channels|
              && Dispatched(s, cmd, reply, lastReply).channel == cmd
    ensures HandleSafe(s, ev)
    ensures ChannelOk(LoggedIn(s, loginReply, chlsReply))
  {
  }

  /** The codes cmdLoop has a case for; every other code is taken as a channel number. */
  predicate IsCommandCase(cmd: int)
  {
    cmd in {Playback.CmdStop, Playback.CmdPlay, Playback.CmdNext, Playback.CmdLoop,
            Playback.CmdSkip, Playback.CmdLike, Playback.CmdUnlike, Playback.CmdTrash}
  }

  /**
   * Stop stops the pipeline and marks the engine paused; Play resumes a paused engine and
   * pauses a playing one, so two in a row restore the flag; Loop flips the loop flag, so two
   * in a row restore it. None of them touches the queue or sends a request.
   */
  lemma StopPlayLoop(s: Fm, reply: Option<seq<Song>>, lastReply: Option<seq<Song>>)
    ensures var t := Dispatched(s, Playback.CmdStop, reply, lastReply);
            t.paused && t.audio == s.audio + [Playback.Stop] && t.(audio := s.audio, paused := s.paused) == s
    ensures var t := Dispatched(s, Playback.CmdPlay, reply, lastReply);
            t.paused == !s.paused
            && t.audio == s.audio + [if s.paused then Playback.Play else Playback.Pause]
            && t.(audio := s.audio, paused := s.paused) == s
    ensures var t := Dispatched(s, Playback.CmdLoop, reply, lastReply);
            t.loop == !s.loop && t.(loop := s.loop) == s
    ensures Dispatched(Dispatched(s, Playback.CmdPlay, reply, lastReply), Playback.CmdPlay, reply, lastReply).paused
            == s.paused
    ensures Dispatched(Dispatched(s, Playback.CmdLoop, reply, lastReply), Playback.CmdLoop, reply, lastReply)
            == s
  {
  }

  /**
   * Next plays the head of the queue (the zero song's empty url when there is none) and asks
   * for more with an OpLast refill exactly when the queue is empty afterwards.
   */
  lemma NextCommand(s: Fm, reply: Option<seq<Song>>, lastReply: Option<seq<Song>>)
    requires |s.playlist| >= 2 || ChannelOk(s)
    ensures var t := Dispatched(s, Playback.CmdNext, reply, lastReply);
            && t.audio == s.audio + Playback.NewSourceInstrs(if |s.playlist| > 0 then s.playlist[0].url else "")
            && t.playing == (if |s.playlist| > 0 then s.playlist[0] else s.playing)
            && (|s.playlist| >= 2 ==> t.sent == s.sent && t.playlist == s.playlist[1..])
            && (|s.playlist| <= 1 ==> |t.sent| == |s.sent| + 1 && t.sent[|s.sent|].op == OpLast)
  {
  }

  /**
   * A refill followed by playing the next track: exactly one request is sent, and the head of
   * the resulting queue (the answer when it holds a song, else the old queue) is played.
   */
  lemma RefilledAndPlayedShape(s: Fm, op: Op, reply: Option<seq<Song>>)
    requires ChannelOk(s)
    ensures var t := RefilledAndPlayed(s, op, reply);
            var q := if reply.Some? && |reply.value| > 0 then reply.value else s.playlist;
            && t.sent == s.sent + [RefillRequest(s, op)]
            && (|q| > 0 ==> t.playing == q[0] && t.playlist == q[1..]
                            && t.audio == s.audio + Playback.NewSourceInstrs(q[0].url))
            && (|q| == 0 ==> t.playing == s.playing && t.playlist == []
                             && t.audio == s.audio + Playback.NewSourceInstrs(""))
  {
    var r := Refilled(s, op, reply).0;
    assert r.sent == s.sent + [RefillRequest(s, op)];
  }

  /**
   * Skip, Trash and a channel number within the catalog send one refill (OpSkip, OpBypass,
   * OpNew) and then play the head of the resulting queue; a channel number first becomes the
   * current channel, so its refill asks for that channel.
   */
  lemma RefillThenPlay(s: Fm, cmd: int, reply: Option<seq<Song>>, lastReply: Option<seq<Song>>)
    requires cmd == Playback.CmdSkip || cmd == Playback.CmdTrash || (!IsCommandCase(cmd) && 1 <= cmd <= |s.channels|)
    requires DispatchSafe(s, cmd)
    ensures var t := Dispatched(s, cmd, reply, lastReply);
            var op := if cmd == Playback.CmdSkip then OpSkip else if cmd == Playback.CmdTrash then OpBypass else OpNew;
            var q := if reply.Some? && |reply.value| > 0 then reply.value else s.playlist;
            && |t.sent| == |s.sent| + 1 && t.sent[|s.sent|].op == op
            && (op == OpNew ==> t.channel == cmd && t.sent[|s.sent|].channel == ChannelIdText(s.channels[cmd - 1].id))
            && (|q| > 0 ==> t.playing == q[0] && t.playlist == q[1..]
                            && t.audio == s.audio + Playback.NewSourceInstrs(q[0].url))
            && (|q| == 0 ==> t.playing == s.playing && t.playlist == []
                             && t.audio == s.audio + Playback.NewSourceInstrs(""))
  {
    var t := Dispatched(s, cmd, reply, lastReply);
    if cmd == Playback.CmdSkip {
      assert t == RefilledAndPlayed(s, OpSkip, reply);
      RefilledAndPlayedShape(s, OpSkip, reply);
    } else if cmd == Playback.CmdTrash {
      assert t == RefilledAndPlayed(s, OpBypass, reply);
      RefilledAndPlayedShape(s, OpBypass, reply);
    } else {
      var s' := s.(channel := cmd);
      assert t == RefilledAndPlayed(s', OpNew, reply);
      RefilledAndPlayedShape(s', OpNew, reply);
    }
  }

  /**
   * Like and Unlike send their refill and set the playing track's like flag to 1 or 0
   * whether or not the refill succeeded; nothing is handed to the pipeline.
   */
  lemma LikeUnlike(s: Fm, reply: Option<seq<Song>>, lastReply: Option<seq<Song>>)
    requires ChannelOk(s)
    ensures var t := Dispatched(s, Playback.CmdLike, reply, lastReply);
            t.playing == s.playing.(like := 1) && t.audio == s.audio
            && t.playlist == Refilled(s, OpLike, reply).0.playlist && t.sent[|s.sent|].op == OpLike
    ensures var t := Dispatched(s, Playback.CmdUnlike, reply, lastReply);
            t.playing == s.playing.(like := 0) && t.audio == s.audio
            && t.playlist == Refilled(s, OpUnlike, reply).0.playlist && t.sent[|s.sent|].op == OpUnlike
  {
  }

  /**
   * Any other code, including CmdChannel, CmdPause, CmdPrev, CmdTune and CmdLogin, is a
   * channel number, and one beyond the catalog is ignored.
   */
  lemma OtherCodesAreChannels(s: Fm, cmd: int, reply: Option<seq<Song>>, lastReply: Option<seq<Song>>)
    ensures !IsCommandCase(Playback.CmdChannel) && !IsCommandCase(Playback.CmdPause)
            && !IsCommandCase(Playback.CmdPrev) && !IsCommandCase(Playback.CmdTune)
            && !IsCommandCase(Playback.CmdLogin)
    ensures !IsCommandCase(cmd) && cmd > |s.channels| ==> Dispatched(s, cmd, reply, lastReply) == s
  {
  }

  /**
   * End of stream while looping replays the playing track and leaves the queue alone; it
   * asks for more (OpLast) only if the queue is empty.
   */
  lemma EndOfStreamLooping(s: Fm, endReply: Option<seq<Song>>, lastReply: Option<seq<Song>>)
    requires s.loop && HandleSafe(s, EndOfStream)
    ensures var t := Handled(s, EndOfStream, endReply, lastReply);
            && t.audio == s.audio + Playback.NewSourceInstrs(s.playing.url)
            && t.playing == s.playing
            && (|s.playlist| > 0 ==> t == s.(audio := t.audio))
            && (|s.playlist| == 0 ==> |t.sent| == |s.sent| + 1 && t.sent[|s.sent|].op == OpLast)
  {
  }

  /**
   * End of stream without looping reports the end (OpEnd), plays the head of the resulting
   * queue, and then asks for more (OpLast) exactly when that queue is empty.
   */
  lemma EndOfStreamAdvances(s: Fm, endReply: Option<seq<Song>>, lastReply: Option<seq<Song>>)
    requires !s.loop && ChannelOk(s)
    ensures var t := Handled(s, EndOfStream, endReply, lastReply);
            var q := if endReply.Some? && |endReply.value| > 0 then endReply.value else s.playlist;
            && t.sent[|s.sent|].op == OpEnd
            && t.audio == s.audio + Playback.NewSourceInstrs(if |q| > 0 then q[0].url else "")
            && t.playing == (if |q| > 0 then q[0] else s.playing)
            && (|q| >= 2 ==> |t.sent| == |s.sent| + 1 && t.playlist == q[1..])
            && (|q| <= 1 ==> |t.sent| == |s.sent| + 2 && t.sent[|s.sent| + 1].op == OpLast)
  {
    var u := RefilledAndPlayed(s, OpEnd, endReply);
    RefilledAndPlayedShape(s, OpEnd, endReply);
    if |u.playlist| == 0 {
      assert Handled(s, EndOfStream, endReply, lastReply) == Refilled(u, OpLast, lastReply).0;
    } else {
      assert Handled(s, EndOfStream, endReply, lastReply) == u;
    }
  }

  /** A pipeline error only stops the pipeline: the paused flag, queue and track are unchanged. */
  lemma ErrorOnlyStops(s: Fm, endReply: Option<seq<Song>>, lastReply: Option<seq<Song>>)
    ensures var t := Handled(s, StreamError, endReply, lastReply);
            t.audio == s.audio + [Playback.Stop] && t.(audio := s.audio) == s
            && t.paused == s.paused && t.playlist == s.playlist
    ensures Handled(s, OtherMessage, endReply, lastReply) == s
  {
  }

  /**
   * A successful login puts the extra channel in front of the old catalog and then appends
   * the favourites and the recommendations, in order and without removing duplicates.
   */
  lemma LoginExtendsCatalog(s: Fm, u: User, favs: seq<LoginChannel>, recs: seq<LoginChannel>)
    requires |s.user.id| == 0 && |u.id| > 0
    ensures var t := LoggedIn(s, Some(u), Some((favs, recs)));
            && t.user == u
            && t.channels == [RedStarChannel] + s.channels + FromLoginAll(favs) + FromLoginAll(recs)
            && |t.channels| == 1 + |s.channels| + |favs| + |recs|
            && t.(channels := s.channels, user := s.user) == s
  {
  }

  /**
   * A login that fails (no answer, or an answer without an id) or that is attempted when a
   * user is already logged in changes nothing but, at most, the decoded user record; a failed
   * channel-list request after a successful login leaves just the extra channel added.
   */
  lemma LoginWithoutEffect(s: Fm, loginReply: Option<User>,
                           chlsReply: Option<(seq<LoginChannel>, seq<LoginChannel>)>, u: User)
    ensures |s.user.id| > 0 ==> LoggedIn(s, loginReply, chlsReply) == s
    ensures |s.user.id| == 0 && (loginReply.None? || |loginReply.value.id| == 0) ==>
              LoggedIn(s, loginReply, chlsReply).(user := s.user) == s
    ensures |s.user.id| == 0 && |u.id| > 0 ==>
              LoggedIn(s, Some(u), None).channels == [RedStarChannel] + s.channels
  {
  }

  /**
   * The channel number is not adjusted when the extra channel is put in front of the catalog,
   * so after a login it designates the entry that used to sit one place before it.
   */
  lemma LoginShiftsCurrentChannel(s: Fm, u: User, chlsReply: Option<(seq<LoginChannel>, seq<LoginChannel>)>)
    requires |s.user.id| == 0 && |u.id| > 0 && ChannelOk(s)
    ensures var t := LoggedIn(s, Some(u), chlsReply);
            t.channel == s.channel
            && t.channels[t.channel - 1] == (if s.channel == 1 then RedStarChannel else s.channels[s.channel - 2])
  {
  }

  /**
   * The program's start-up path: the catalog is loaded, the first command is channel 1, and
   * a refill with songs makes the first song play and the rest wait in the queue.
   */
  lemma StartupTunesFirstChannel(chs: seq<Channel>, songs: seq<Song>, lastReply: Option<seq<Song>>)
    requires |songs| > 0
    ensures var s := WithCatalog(Initial(), Some(chs)).0;
            var t := Dispatched(s, 1, Some(songs), lastReply);
            && t.channel == 1
            && t.sent == [Refill(OpNew, ChannelIdText(s.channels[0].id), "", "")]
            && t.playing == songs[0] && t.playlist == songs[1..]
            && t.audio == Playback.NewSourceInstrs(songs[0].url)
            && t.paused
  {
  }

  lemma {:induction false} ConcatLines(lines: seq<string>)
    requires forall i :: 0 <= i < |lines| ==> Newlines(lines[i]) == 1
    ensures Newlines(Concat(lines)) == |lines|
  {
    if lines != [] {
      ConcatLines(lines[..|lines| - 1]);
      NewlinesConcat(Concat(lines[..|lines| - 1]), lines[|lines| - 1]);
    }
  }

  lemma OneLine(body: string)
    requires '\n' !in body
    ensures Newlines(body + "\n") == 1
  {
    NoNewlines(body);
    NewlinesConcat(body, "\n");
  }

  /** A field whose key and value have no line break is exactly one line. */
  lemma FieldLine(key: string, value: string)
    requires '\n' !in key && '\n' !in value
    ensures Newlines(Field(key, value)) == 1
  {
    var pad := PadLeft(key, 10);
    assert pad == key || pad == Spaces(10 - |key|) + key;
    assert '\n' !in pad;
    OneLine(pad + ": " + value);
  }

  /**
   * song.String() without line breaks inside the fields it shows has one line per field,
   * Title, Artist, Alum, Public, Company, Url, Kbps, Like, and the Url line shows the album
   * link with the site prefix.
   */
  lemma SongTextLines(s: Song)
    requires PlainText(s)
    ensures Newlines(SongText(s)) == 8
    ensures SongFieldLines(s)[5] == Field("Url", AlbumUrl(s.album)) && HasPrefix(AlbumUrl(s.album), "http")
  {
    SongKeysAreWords();
    SongValuesAreWords(s);
    FieldLinesAreLines(SongKeys, SongValues(s));
    ConcatLines(SongFieldLines(s));
  }

  /** No key of song.String() holds a line break. */
  lemma SongKeysAreWords()
    ensures forall i :: 0 <= i < |SongKeys| ==> '\n' !in SongKeys[i]
  {
  }

  /** The values shown hold no line break when the song's text fields hold none. */
  lemma SongValuesAreWords(s: Song)
    requires PlainText(s)
    ensures forall i :: 0 <= i < |SongValues(s)| ==> '\n' !in SongValues(s)[i]
  {
    var url := AlbumUrl(s.album);
    assert '\n' !in url by {
      assert url == s.album || url == "http://www.douban.com" + s.album;
    }
    ItoaHasNoNewline(s.kbps, 0);
    ItoaHasNoNewline(s.like, 0);
  }

  /** Keys and values without line breaks give exactly one line each. */
  lemma FieldLinesAreLines(keys: seq<string>, vals: seq<string>)
    requires |keys| == |vals|
    requires forall i :: 0 <= i < |keys| ==> '\n' !in keys[i] && '\n' !in vals[i]
    ensures forall i :: 0 <= i < |keys| ==> Newlines(FieldLines(keys, vals)[i]) == 1
  {
    forall i | 0 <= i < |keys|
      ensures Newlines(FieldLines(keys, vals)[i]) == 1
    {
      FieldLine(keys[i], vals[i]);
    }
  }

  lemma ItoaHasNoNewline(n: int, w: nat)
    ensures '\n' !in PadLeft(Itoa(n), w)
  {
    var t := if n < 0 then NatText(-n) else NatText(n);
    assert forall i :: 0 <= i < |t| ==> IsDigit(t[i]);
    assert '\n' !in t;
  }

  /**
   * Channels(): one line per catalog entry, numbered from 1, with '+' at the marker position
   * of exactly the line whose number is the current channel and '-' on every other line.
   */
  lemma ChannelsListing(chs: seq<Channel>, cur: int)
    ensures |ChannelLines(chs, cur)| == |chs|
    ensures forall i :: 0 <= i < |chs| ==>
              ChannelLines(chs, cur)[i][MarkerAt(i + 1)] == (if i + 1 == cur then '+' else '-')
    ensures (forall i :: 0 <= i < |chs| ==> '\n' !in chs[i].name && '\n' !in chs[i].intro) ==>
              Newlines(Concat(ChannelLines(chs, cur))) == |chs|
  {
    ChannelMarkers(chs, cur);
    if forall i :: 0 <= i < |chs| ==> '\n' !in chs[i].name && '\n' !in chs[i].intro {
      ChannelLinesCount(chs, cur);
    }
  }

  /** Every channel line carries '+' exactly when its number is the current channel. */
  lemma ChannelMarkers(chs: seq<Channel>, cur: int)
    ensures forall i :: 0 <= i < |chs| ==>
              ChannelLines(chs, cur)[i][MarkerAt(i + 1)] == (if i + 1 == cur then '+' else '-')
  {
    forall i | 0 <= i < |chs|
      ensures ChannelLines(chs, cur)[i][MarkerAt(i + 1)] == (if i + 1 == cur then '+' else '-')
    {
      ChannelLineMarker(i + 1, chs[i], i + 1 == cur);
    }
  }

  /** Names and intros without line breaks give one line per channel. */
  lemma ChannelLinesCount(chs: seq<Channel>, cur: int)
    requires forall i :: 0 <= i < |chs| ==> '\n' !in chs[i].name && '\n' !in chs[i].intro
    ensures Newlines(Concat(ChannelLines(chs, cur))) == |chs|
  {
    ChannelLinesAreLines(chs, cur);
    ConcatLines(ChannelLines(chs, cur));
  }

  /** Each channel line whose name and intro hold no line break is exactly one line. */
  lemma ChannelLinesAreLines(chs: seq<Channel>, cur: int)
    requires forall i :: 0 <= i < |chs| ==> '\n' !in chs[i].name && '\n' !in chs[i].intro
    ensures forall i :: 0 <= i < |chs| ==> Newlines(ChannelLines(chs, cur)[i]) == 1
  {
    forall i | 0 <= i < |chs|
      ensures Newlines(ChannelLines(chs, cur)[i]) == 1
    {
      var line := ChannelLine(i + 1, chs[i], i + 1 == cur);
      ChannelLineIsLine(i + 1, chs[i], i + 1 == cur);
      assert ChannelLines(chs, cur)[i] == line;
    }
  }

  /** The marker of a channel line is '+' for the current channel and '-' otherwise. */
  lemma ChannelLineMarker(n: int, ch: Channel, current: bool)
    ensures ChannelLine(n, ch, current)[MarkerAt(n)] == (if current then '+' else '-')
  {
    var pad := PadLeft(Itoa(n), 2);
    var tail := ChannelTail(ch, current);
    var mark := if current then " + " else " - ";
    assert tail[1] == mark[1];
    assert (pad + tail)[|pad| + 1] == tail[1];
  }

  /** A channel line whose name and intro hold no line break is exactly one line. */
  lemma ChannelLineIsLine(n: int, ch: Channel, current: bool)
    requires '\n' !in ch.name && '\n' !in ch.intro
    ensures Newlines(ChannelLine(n, ch, current)) == 1
  {
    var pad := PadLeft(Itoa(n), 2);
    ItoaHasNoNewline(n, 2);
    NoNewlines(pad);
    OneLine((if current then " + " else " - ") + ch.name + " " + ch.intro);
    NewlinesConcat(pad, ChannelTail(ch, current));
  }

  /**
   * Playlist(): the playing track's line first when it has a song id, then one line per
   * queued track in queue order.
   */
  lemma PlaylistListing(playing: Song, playlist: seq<Song>)
    ensures var lines := PlaylistLines(playing, playlist);
            var h := if |playing.sid| > 0 then 1 else 0;
            && |lines| == h + |playlist|
            && (h == 1 ==> lines[0] == SongLine(playing))
            && forall k :: 0 <= k < |playlist| ==> lines[h + k] == SongLine(playlist[k])
    ensures (forall s :: s in [playing] + playlist ==>
               '\n' !in s.title && '\n' !in s.artist && '\n' !in s.pubTime) ==>
              Newlines(Concat(PlaylistLines(playing, playlist)))
              == |playlist| + (if |playing.sid| > 0 then 1 else 0)
  {
    var lines := PlaylistLines(playing, playlist);
    if forall s :: s in [playing] + playlist ==> '\n' !in s.title && '\n' !in s.artist && '\n' !in s.pubTime {
      forall i | 0 <= i < |lines|
        ensures Newlines(lines[i]) == 1
      {
        var h := if |playing.sid| > 0 then 1 else 0;
        var s := if i < h then playing else playlist[i - h];
        assert s in [playing] + playlist;
        assert lines == (if h == 1 then [SongLine(playing)] else []) + SongLines(playlist);
        var body := s.title + " - " + s.artist + " (" + s.pubTime + ")";
        assert lines[i] == SongLine(s) == body + "\n";
        OneLine(body);
      }
      ConcatLines(lines);
    }
  }

  /** The album link always starts with "http"; prefixing is idempotent and leaves full links alone. */
  lemma AlbumUrlNormal(album: string)
    ensures AlbumUrl(AlbumUrl(album)) == AlbumUrl(album)
    ensures AlbumUrl(album) == album <==> HasPrefix(album, "http")
  {
  }

  // ---------------------------------------------------------------- the engine

  class DoubanFM {
    /** The embedded player (the command mailbox). */
    const player: Playback.Player
    const gst: Playback.Gstreamer
    var channels: seq<Channel>
    var channel: int
    var paused: bool
    var loop: bool
    var playlist: seq<Song>
    var playing: Song
    var user: User
    /** The refill requests sent so far. */
    var sent: seq<Refill>

    function Snapshot(): Fm
      reads this, gst
    {
      Fm(channels, channel, paused, loop, playlist, playing, user, gst.log, sent)
    }

    /** NewDouban (the dispatcher goroutine and the bus watch are not started here). */
    constructor ()
      ensures Snapshot() == Initial()
      ensures fresh(player) && fresh(gst) && player.slot == None
    {
      player := new Playback.Player();
      gst := new Playback.Gstreamer();
      channels := [PersonalChannel];
      channel := 2;
      paused := true;
      loop := false;
      playlist := [];
      playing := NoSong;
      user := Anonymous;
      sent := [];
    }

    method Next() returns (song: Song)
      modifies this
      ensures (Snapshot(), song) == Popped(old(Snapshot()))
    {
      if |playlist| > 0 {
        playing := playlist[0];
        playlist := playlist[1..];
        return playing;
      }
      return NoSong;
    }

    method NewPlaylist(op: Op, reply: Option<seq<Song>>) returns (n: nat)
      requires ChannelOk(Snapshot())
      modifies this
      ensures (Snapshot(), n) == Refilled(old(Snapshot()), op, reply)
    {
      sent := sent + [Refill(op, ChannelIdText(channels[channel - 1].id), playing.sid, user.id)];
      if reply.None? {
        return 0;
      }
      var songs := reply.value;
      if |songs| > 0 {
        playlist := songs;
      }
      return |songs|;
    }

    method GetChannels(reply: Option<seq<Channel>>) returns (n: nat)
      modifies this
      ensures (Snapshot(), n) == WithCatalog(old(Snapshot()), reply)
    {
      if reply.None? {
        return 0;
      }
      var chs := reply.value;
      if |chs| > 0 {
        channels := chs;
      }
      return |chs|;
    }

    method GetLoginChls(reply: Option<(seq<LoginChannel>, seq<LoginChannel>)>)
      modifies this
      ensures Snapshot() == WithLoginChannels(old(Snapshot()), reply)
    {
      if reply.None? {
        return;
      }
      var favs, recs := reply.value.0, reply.value.1;
      var i := 0;
      while i < |favs|
        invariant 0 <= i <= |favs|
        invariant Snapshot() == old(Snapshot()).(channels := old(channels) + FromLoginAll(favs[..i]))
      {
        assert FromLoginAll(favs[..i + 1]) == FromLoginAll(favs[..i]) + [FromLogin(favs[i])];
        channels := channels + [FromLogin(favs[i])];
        i := i + 1;
      }
      assert favs[..i] == favs;
      var j := 0;
      while j < |recs|
        invariant 0 <= j <= |recs|
        invariant Snapshot() == old(Snapshot()).(channels := old(channels) + FromLoginAll(favs)
                                                              + FromLoginAll(recs[..j]))
      {
        assert FromLoginAll(recs[..j + 1]) == FromLoginAll(recs[..j]) + [FromLogin(recs[j])];
        channels := channels + [FromLogin(recs[j])];
        j := j + 1;
      }
      assert recs[..j] == recs;
    }

    /**
     * Login once the id and password have been read: loginReply is the decoded answer to the
     * login exchange, chlsReply the answer to the channel-list request that follows it.
     */
    method Login(loginReply: Option<User>, chlsReply: Option<(seq<LoginChannel>, seq<LoginChannel>)>)
      returns (printed: string)
      modifies this
      ensures Snapshot() == LoggedIn(old(Snapshot()), loginReply, chlsReply)
      ensures |old(user.id)| > 0 ==> printed == UserInfo(old(user)) + "\n"
      ensures |old(user.id)| == 0 ==> printed == ""
    {
      printed := "";
      if |user.id| > 0 {
        printed := UserInfo(user) + "\n";
        return;
      }
      if loginReply.Some? {
        user := loginReply.value;
      }
      if |user.id| > 0 {
        var chs := [RedStarChannel];
        chs := chs + channels;
        channels := chs;
        GetLoginChls(chlsReply);
      }
    }

    method PlayNext()
      modifies this, gst
      ensures Snapshot() == PlayedNext(old(Snapshot()))
    {
      var song := Next();
      gst.NewSource(song.url);
    }

    method AdvanceNext(lastReply: Option<seq<Song>>)
      requires |playlist| >= 2 || ChannelOk(Snapshot())
      modifies this, gst
      ensures Snapshot() == AdvancedNext(old(Snapshot()), lastReply)
    {
      PlayNext();
      if |playlist| == 0 {
        var _ := NewPlaylist(OpLast, lastReply);
      }
    }

    method RefillAndPlay(op: Op, reply: Option<seq<Song>>)
      requires ChannelOk(Snapshot())
      modifies this, gst
      ensures Snapshot() == RefilledAndPlayed(old(Snapshot()), op, reply)
    {
      var _ := NewPlaylist(op, reply);
      PlayNext();
    }

    method Rate(op: Op, reply: Option<seq<Song>>, like: int)
      requires ChannelOk(Snapshot())
      modifies this
      ensures Snapshot() == Rated(old(Snapshot()), op, reply, like)
    {
      var _ := NewPlaylist(op, reply);
      playing := playing.(like := like);
    }

    /** Apply one command, as one iteration of cmdLoop does. */
    method Dispatch(cmd: int, reply: Option<seq<Song>>, lastReply: Option<seq<Song>>)
      requires DispatchSafe(Snapshot(), cmd)
      modifies this, gst
      ensures Snapshot() == Dispatched(old(Snapshot()), cmd, reply, lastReply)
    {
      if cmd == Playback.CmdStop {
        gst.Stop();
        paused := true;
      } else if cmd == Playback.CmdPlay {
        if paused {
          gst.Play();
        } else {
          gst.Pause();
        }
        paused := !paused;
      } else if cmd == Playback.CmdNext {
        AdvanceNext(lastReply);
      } else if cmd == Playback.CmdLoop {
        loop := !loop;
      } else if cmd == Playback.CmdSkip {
        RefillAndPlay(OpSkip, reply);
      } else if cmd == Playback.CmdLike {
        Rate(OpLike, reply, 1);
      } else if cmd == Playback.CmdUnlike {
        Rate(OpUnlike, reply, 0);
      } else if cmd == Playback.CmdTrash {
        RefillAndPlay(OpBypass, reply);
      } else if cmd <= |channels| {
        channel := cmd;
        RefillAndPlay(OpNew, reply);
      }
    }

    /**
     * One turn of the dispatcher: take the pending command out of the mailbox, if there is
     * one, and apply it.
     */
    method Serve(reply: Option<seq<Song>>, lastReply: Option<seq<Song>>)
      requires player.slot.Some? ==> DispatchSafe(Snapshot(), player.slot.value)
      modifies this, gst, player
      ensures player.slot == None
      ensures old(player.slot).None? ==> Snapshot() == old(Snapshot())
      ensures old(player.slot).Some? ==>
                Snapshot() == Dispatched(old(Snapshot()), old(player.slot).value, reply, lastReply)
    {
      var cmd := player.Receive();
      if cmd.Some? {
        Dispatch(cmd.value, reply, lastReply);
      }
    }

    /** onMessage, run as a sequential event handler. */
    method OnMessage(ev: Event, endReply: Option<seq<Song>>, lastReply: Option<seq<Song>>)
      requires HandleSafe(Snapshot(), ev)
      modifies this, gst
      ensures Snapshot() == Handled(old(Snapshot()), ev, endReply, lastReply)
    {
      match ev
      case EndOfStream =>
        if loop {
          gst.NewSource(playing.url);
        } else {
          RefillAndPlay(OpEnd, endReply);
        }
        if |playlist| == 0 {
          var _ := NewPlaylist(OpLast, lastReply);
        }
      case StreamError =>
        gst.Stop();
      case OtherMessage =>
    }

    /** The catalog listing, one line per channel. */
    method Channels() returns (text: string)
      ensures text == Concat(ChannelLines(channels, channel))
    {
      text := "";
      var i := 0;
      while i < |channels|
        invariant 0 <= i <= |channels|
        invariant text == Concat(ChannelLines(channels, channel)[..i])
      {
        var line := if i + 1 == channel then ChannelLine(i + 1, channels[i], true)
                    else ChannelLine(i + 1, channels[i], false);
        ConcatStep(ChannelLines(channels, channel), i);
        text := text + line;
        i := i + 1;
      }
      assert ChannelLines(channels, channel)[..i] == ChannelLines(channels, channel);
    }

    /** The playing track (when it has a song id) followed by the queue, one line each. */
    method Playlist() returns (text: string)
      ensures text == Concat(PlaylistLines(playing, playlist))
    {
      var head: seq<string> := [];
      text := "";
      if |playing.sid| > 0 {
        head := [SongLine(playing)];
        text := SongLine(playing);
        assert Concat(head) == Concat([]) + SongLine(playing);
      }
      text := AppendSongLines(text, head, playlist);
    }

    /** The playing track's description: one line per field when its fields are plain text. */
    function Current(): (r: string)
      reads this
      ensures PlainText(playing) ==> Newlines(r) == 8
    {
      if PlainText(playing) then SongTextLines(playing); SongText(playing) else SongText(playing)
    }
  }
}
