/**
 * The older Douban FM engine (package gofm). Here the head of the queue is the current song:
 * every report to the service (new channel, skip, trash, end, last, rate) sends the head's
 * song id, merges the answer into the queue, and a deferred check keeps the queue stocked.
 *
 * The package-level request parameters (defaultParam) become a field of the engine. The
 * service is the field replies: the answers it will give, in order, one per request (an
 * exhausted script answers with a transport failure). The recursion check -> Tune -> check
 * is bounded by a fuel argument. The places where Go indexes an empty queue (a panic that
 * ends the process) set the flag crashed, after which the engine takes no further calls.
 */
module Gofm {
  import opened Wrappers
  import opened Text

  // Report types ("type" query parameter).
  const BYPASS := "b"
  const END := "e"
  const NEW := "n"
  const LAST := "p"
  const SKIP := "s"
  const UNRATE := "u"
  const RATE := "r"

  // Values of the "from" parameter.
  const Radio := "radio"
  const MainSite := "mainsite"

  const ExtMp3 := ".mp3"
  const ExtJpg := ".jpg"

  const ChannelPrivate := 1
  const ChannelChn := 2

  /** CHANNEL_CURRENT is defined outside this file; this model gives it the value 0. */
  const ChannelCurrent := 0

  const RandFloor := 0x10_0000_0000
  const RandCeil := 0xF0_0000_0000

  /** Nanoseconds per second (time.Second). */
  const Second := 1_000_000_000

  // ---------------------------------------------------------------- data model

  /**
   * A JSON field decoded into an empty interface: an int, a float64 (kept as its truncation
   * toward zero, which is all that like and duration use), a string, or anything else.
   */
  datatype Dyn = DynInt(i: int) | DynFloat(trunc: int) | DynStr(s: string) | DynOther

  /** A track as the service sends it, restricted to the fields the engine reads. */
  datatype DoubanSong = DoubanSong(picture: string, albumTitle: string, company: string,
                                   publicTime: int, album: string, like: Dyn, artist: string,
                                   url: string, title: string, length: Dyn, sid: string)

  /** The Song the engine shows (its type is declared outside this file; minimal stand-in). */
  datatype Song = Song(sid: int, title: string, album: string, artist: string, company: string,
                       public: int, duration: int, like: bool, songPath: string, picPath: string)

  const NoSong := Song(0, "", "", "", "", 0, 0, false, "", "")

  /** The service's answer to a playlist request. */
  datatype Response = Response(result: int, songs: seq<DoubanSong>, error: string)

  /** The request parameters kept between requests (the time played is not modelled). */
  datatype Param = Param(typ: string, channel: int, source: string, songId: string)

  const DefaultParam := Param(NEW, ChannelChn, MainSite, "0")

  /** The parameters of one playlist request as they go on the wire. */
  datatype Query = Query(typ: string, channel: int, source: string, sid: string)

  // ---------------------------------------------------------------- song helpers

  /** like(): an int or float is liked when nonzero, a string when it parses as a nonzero int. */
  function Like(v: Dyn): (liked: bool)
    ensures liked <==> (v.DynInt? && v.i != 0) || (v.DynFloat? && v.trunc != 0)
                       || (v.DynStr? && Atoi(v.s).Some? && Atoi(v.s).value != 0)
  {
    var like := match v
      case DynInt(i) => i
      case DynFloat(t) => t
      case DynStr(s) => (match Atoi(s) case Some(n) => n case None => 0)
      case DynOther => 0;
    like != 0
  }

  /**
   * duration(): the length in seconds as a time.Duration (nanoseconds). A string length is
   * read when it is a plain decimal integer.
   */
  function DurationOf(v: Dyn): (d: int)
    ensures d % Second == 0
    ensures v.DynInt? ==> d == v.i * Second
  {
    var seconds := match v
      case DynInt(i) => i
      case DynFloat(t) => t
      case DynStr(s) => (match ParseDecimal(s) case Some(n) => n case None => 0)
      case DynOther => 0;
    seconds * Second
  }

  /** An int length and the same length written as a decimal string give the same duration. */
  lemma DurationOfText(n: int)
    ensures DurationOf(DynStr(Itoa(n))) == DurationOf(DynInt(n))
  {
    ParseItoa(n);
  }

  /** The last path segment of a path ending with ext keeps that ending. */
  lemma LastSegmentKeepsExt(s: string, ext: string)
    requires HasSuffix(s, ext) && '/' !in ext
    ensures HasSuffix(LastSegment(s), ext)
  {
    var r := LastSegment(s);
    assert r[|r| - |ext|..] == s[|s| - |ext|..];
  }

  lemma SuffixOfConcat(a: string, b: string, e: string)
    requires HasSuffix(b, e)
    ensures HasSuffix(a + b, e) && HasPrefix(a + b, a)
  {
    assert (a + b)[|a + b| - |e|..] == b[|b| - |e|..];
    assert (a + b)[..|a|] == a;
  }

  /** A file extension: a dot followed by no dot and no separator. */
  predicate IsExtension(ext: string)
  {
    |ext| >= 1 && ext[0] == '.' && '.' !in ext[1..] && '/' !in ext
  }

  /** The cache file for a remote file: dir + its base name when it has extension ext, else "". */
  function CachePath(url: string, ext: string, dir: string): string
  {
    if Ext(url) != ext then "" else dir + Base(url)
  }

  /**
   * A file is cached under its own name exactly when its url ends with the extension, and the
   * cache path then keeps that extension.
   */
  lemma CachePathShape(url: string, ext: string, dir: string)
    requires IsExtension(ext)
    ensures !HasSuffix(url, ext) ==> CachePath(url, ext, dir) == ""
    ensures HasSuffix(url, ext) ==>
              var p := CachePath(url, ext, dir);
              p == dir + LastSegment(url) && HasSuffix(p, ext) && HasPrefix(p, dir)
  {
    ExtIsSuffix(url, ext);
    if HasSuffix(url, ext) {
      BaseOfFile(url);
      LastSegmentKeepsExt(url, ext);
      SuffixOfConcat(dir, LastSegment(url), ext);
    }
  }

  /** songPath(): the cache file for the stream, or "" when the url is not an .mp3 file. */
  function SongPath(url: string, songCacheDir: string): string
  {
    CachePath(url, ExtMp3, songCacheDir)
  }

  /** picPath(): the cache file for the cover, or "" when the picture is not a .jpg file. */
  function PicPath(picture: string, picCacheDir: string): string
  {
    CachePath(picture, ExtJpg, picCacheDir)
  }

  /** Streams are cached as .mp3 files and covers as .jpg files, under their own names. */
  lemma CachePaths(url: string, picture: string, songCacheDir: string, picCacheDir: string)
    ensures SongPath(url, songCacheDir) != "" <==> HasSuffix(url, ExtMp3)
    ensures HasSuffix(url, ExtMp3) ==>
              SongPath(url, songCacheDir) == songCacheDir + LastSegment(url)
              && HasSuffix(SongPath(url, songCacheDir), ExtMp3)
    ensures PicPath(picture, picCacheDir) != "" <==> HasSuffix(picture, ExtJpg)
    ensures HasSuffix(picture, ExtJpg) ==>
              PicPath(picture, picCacheDir) == picCacheDir + LastSegment(picture)
              && HasSuffix(PicPath(picture, picCacheDir), ExtJpg)
  {
    assert IsExtension(ExtMp3) by { assert ExtMp3[1..] == "mp3"; }
    assert IsExtension(ExtJpg) by { assert ExtJpg[1..] == "jpg"; }
    CachePathShape(url, ExtMp3, songCacheDir);
    CachePathShape(picture, ExtJpg, picCacheDir);
  }

  /** What Current() copies from the head of the queue into the current song. */
  function SongOf(d: DoubanSong, songCacheDir: string, picCacheDir: string): Song
  {
    Song(AtoiValue(d.sid), d.title, d.albumTitle, d.artist, d.company, d.publicTime,
         DurationOf(d.length), Like(d.like), SongPath(d.url, songCacheDir), PicPath(d.picture, picCacheDir))
  }

  // ---------------------------------------------------------------- channel table

  /** makeChannel: the fixed channel-number table. */
  function ChannelTable(): map<int, string>
  {
    map[1 := "私人频道", 2 := "华语", 3 := "欧美", 4 := "七零", 5 := "八零", 6 := "九零",
        7 := "粤语", 8 := "摇滚", 9 := "民谣", 10 := "轻音乐", 11 := "电影原声",
        14 := "爵士", 15 := "电子", 16 := "说唱", 17 := "R&B", 18 := "日语", 19 := "韩语",
        20 := "Puma", 21 := "女生", 23 := "法语", 27 := "豆瓣音乐人"]
  }

  /** The channel numbers the table knows: 1-11, 14-21, 23 and 27. */
  predicate KnownChannel(ch: int)
  {
    1 <= ch <= 11 || 14 <= ch <= 21 || ch == 23 || ch == 27
  }

  /** Channel(ch): the entry for ch (or for the current channel) if known, else the whole table. */
  function Lookup(table: map<int, string>, ch: int, currentChannel: int): (map<int, string>, bool)
  {
    var c := if ch == ChannelCurrent then currentChannel else ch;
    if c in table then (map[c := table[c]], true) else (table, false)
  }

  /**
   * With the fixed table, Channel answers a known channel number with the one-entry table for
   * it, and any other number with the whole table and ok = false.
   */
  lemma ChannelLookup(ch: int, currentChannel: int)
    ensures forall c :: c in ChannelTable() <==> KnownChannel(c)
    ensures ch != ChannelCurrent ==>
              var (m, ok) := Lookup(ChannelTable(), ch, currentChannel);
              && ok == KnownChannel(ch)
              && (ok ==> m.Keys == {ch} && m[ch] == ChannelTable()[ch])
              && (!ok ==> m == ChannelTable())
    ensures ch == ChannelCurrent ==> Lookup(ChannelTable(), ch, currentChannel).1 == KnownChannel(currentChannel)
  {
  }

  // ---------------------------------------------------------------- requests

  /** RandomStr, given the non-negative value rand.Int63 produced: always ten hex digits. */
  function RandomStr(n: int): (r: string)
    requires n >= 0
    ensures |r| == 10 && forall i :: 0 <= i < |r| ==> IsHexDigit(r[i])
  {
    var v := n % RandCeil + RandFloor;
    assert Pow16(9) == RandFloor && Pow16(10) == RandFloor * 16;
    HexTextLength(v, 9);
    HexText(v)
  }

  /** playList's reading of one answer: a failed request or a nonzero result code is an error. */
  function Interpret(reply: Option<Response>): (r: Result<seq<DoubanSong>, string>)
    ensures r.Ok? <==> reply.Some? && reply.value.result == 0
    ensures r.Ok? ==> r.value == reply.value.songs
    ensures reply.Some? && reply.value.result != 0 ==> r == Err(reply.value.error)
  {
    match reply
    case None => Err("request failed")
    case Some(resp) => if resp.result != 0 then Err(resp.error) else Ok(resp.songs)
  }

  /** The answer the next request gets, and the answers left after it. */
  function NextAnswer(replies: seq<Option<Response>>): Result<seq<DoubanSong>, string>
  {
    if replies == [] then Interpret(None) else Interpret(replies[0])
  }

  function Rest(replies: seq<Option<Response>>): seq<Option<Response>>
  {
    if replies == [] then [] else replies[1..]
  }

  /** An answer that fills the queue: a successful reply with at least two songs. */
  predicate Healthy(replies: seq<Option<Response>>)
  {
    |replies| > 0 && replies[0].Some? && replies[0].value.result == 0 && |replies[0].value.songs| >= 2
  }

  /**
   * addSong: no songs leave the queue alone; otherwise the queue becomes the songs, after the
   * old head when keep is set.
   */
  function Merged(keep: bool, queue: seq<DoubanSong>, got: seq<DoubanSong>): seq<DoubanSong>
    requires keep && |got| > 0 ==> |queue| > 0
  {
    if |got| == 0 then queue else if keep then [queue[0]] + got else got
  }

  /**
   * Merging is replacing or keeping the head and appending: the result holds the songs at its
   * end, keeps the old head exactly when keep is set, and nothing more.
   */
  lemma MergedShape(keep: bool, queue: seq<DoubanSong>, got: seq<DoubanSong>)
    requires keep && |got| > 0 ==> |queue| > 0
    ensures |got| == 0 ==> Merged(keep, queue, got) == queue
    ensures |got| > 0 && !keep ==> Merged(keep, queue, got) == got
    ensures |got| > 0 && keep ==>
              |Merged(keep, queue, got)| == |got| + 1 && Merged(keep, queue, got)[0] == queue[0]
              && Merged(keep, queue, got)[1..] == got
  {
  }

  // ---------------------------------------------------------------- the engine

  class DoubanFM {
    var songs: seq<DoubanSong>
    var current: Song
    /** The fixed channel table (makeChannel). */
    const channelList: map<int, string>
    var currentChannel: int
    /** The package-level request parameters. */
    var param: Param
    /** The service's answers still to come, in order. */
    var replies: seq<Option<Response>>
    /** The playlist requests sent so far. */
    var sent: seq<Query>
    /** The songs handed to the download-and-play goroutine, in order. */
    var handed: seq<DoubanSong>
    var crashed: bool
    const songCacheDir: string
    const picCacheDir: string

    /** NewDoubanFM; the download-and-play goroutine is represented by handed. */
    constructor (server: seq<Option<Response>>, songCacheDir: string, picCacheDir: string)
      ensures songs == [] && current == NoSong && channelList == ChannelTable()
      ensures currentChannel == 0 && param == DefaultParam && replies == server
      ensures sent == [] && handed == [] && !crashed
      ensures this.songCacheDir == songCacheDir && this.picCacheDir == picCacheDir
    {
      songs := [];
      current := NoSong;
      channelList := ChannelTable();
      currentChannel := 0;
      param := DefaultParam;
      replies := server;
      sent := [];
      handed := [];
      crashed := false;
      this.songCacheDir := songCacheDir;
      this.picCacheDir := picCacheDir;
    }

    /**
     * Channel(ch): the current-channel marker stands for the current channel; a known number
     * gives the one-entry table for it and ok, any other the whole table and not ok.
     */
    function Channel(ch: int): (r: (map<int, string>, bool))
      reads this
      ensures var c := if ch == ChannelCurrent then currentChannel else ch;
              && (r.1 <==> c in channelList)
              && (r.1 ==> r.0.Keys == {c})
              && (forall k :: k in r.0 ==> k in channelList && r.0[k] == channelList[k])
              && (!r.1 ==> r.0 == channelList)
    {
      Lookup(channelList, ch, currentChannel)
    }

    /** sid(): the head's song id, or the last id reported when the queue is empty. */
    function Sid(): (id: string)
      reads this
      ensures |songs| > 0 ==> id == songs[0].sid
      ensures |songs| == 0 ==> id == param.songId
    {
      if |songs| == 0 then param.songId else songs[0].sid
    }

    /** Current(): copy the head into the current song; an empty queue leaves it as it was. */
    method Current() returns (c: Song)
      modifies this`current
      ensures current == (if |songs| == 0 then old(current) else SongOf(songs[0], songCacheDir, picCacheDir))
      ensures c == current
    {
      if |songs| == 0 {
        return current;
      }
      current := SongOf(songs[0], songCacheDir, picCacheDir);
      return current;
    }

    method AddSong(keep: bool, got: seq<DoubanSong>) returns (n: nat)
      requires keep && |got| > 0 ==> |songs| > 0
      modifies this`songs
      ensures songs == Merged(keep, old(songs), got) && n == |got|
    {
      if |got| == 0 {
        return 0;
      }
      var old_ := songs;
      songs := [];
      if keep {
        songs := songs + [old_[0]];
      }
      songs := songs + got;
      return |got|;
    }

    /** playList(param): send the request, take the next answer. */
    method PlayList() returns (res: Result<seq<DoubanSong>, string>)
      modifies this`sent, this`replies
      ensures sent == old(sent) + [Query(param.typ, param.channel - 1, param.source, param.songId)]
      ensures res == NextAnswer(old(replies)) && replies == Rest(old(replies))
    {
      sent := sent + [Query(param.typ, param.channel - 1, param.source, param.songId)];
      if replies == [] {
        return Interpret(None);
      }
      res := Interpret(replies[0]);
      replies := replies[1..];
    }

    /** dfm.chanSong <- &dfm.songs[0]: hand the head over, or crash on an empty queue. */
    method Hand()
      modifies this`handed, this`crashed
      ensures crashed == (old(crashed) || |songs| == 0)
      ensures handed == (if |songs| == 0 then old(handed) else old(handed) + [songs[0]])
    {
      if |songs| == 0 {
        crashed := true;
        return;
      }
      handed := handed + [songs[0]];
    }

    /** Current() followed by the hand-over: show the head and pass it to the player. */
    method Show()
      modifies this`current, this`handed, this`crashed
      ensures crashed == (old(crashed) || |songs| == 0)
      ensures |songs| == 0 ==> current == old(current) && handed == old(handed)
      ensures |songs| > 0 ==>
                current == SongOf(songs[0], songCacheDir, picCacheDir) && handed == old(handed) + [songs[0]]
    {
      var _ := Current();
      Hand();
    }

    /** A successful Tune, Skip or Trash: replace the queue with the answer, then show the head. */
    method Install(got: seq<DoubanSong>)
      modifies this`songs, this`current, this`handed, this`crashed
      ensures songs == Merged(false, old(songs), got)
      ensures crashed == (old(crashed) || |songs| == 0)
      ensures |songs| == 0 ==> current == old(current) && handed == old(handed)
      ensures |songs| > 0 ==>
                current == SongOf(songs[0], songCacheDir, picCacheDir) && handed == old(handed) + [songs[0]]
    {
      var _ := AddSong(false, got);
      Show();
    }

    /** Set the report type and song id, then request. */
    method Report(typ: string) returns (res: Result<seq<DoubanSong>, string>)
      modifies this`param, this`sent, this`replies
      ensures param == old(param).(typ := typ, songId := old(Sid()))
      ensures sent == old(sent) + [Query(typ, old(param).channel - 1, old(param).source, old(Sid()))]
      ensures res == NextAnswer(old(replies)) && replies == Rest(old(replies))
    {
      param := param.(typ := typ, songId := Sid());
      res := PlayList();
    }

    /** The body of Tune(channel), before its deferred check. */
    method TuneStep(channel: int)
      requires !crashed
      modifies this
      ensures param == old(param).(typ := NEW, channel := channel, songId := old(Sid()))
      ensures sent == old(sent) + [Query(NEW, channel - 1, old(param).source, old(Sid()))]
      ensures replies == Rest(old(replies))
      ensures NextAnswer(old(replies)).Err? ==>
                songs == old(songs) && currentChannel == old(currentChannel)
                && current == old(current) && handed == old(handed) && !crashed
      ensures NextAnswer(old(replies)).Ok? ==>
                currentChannel == channel
                && songs == Merged(false, old(songs), NextAnswer(old(replies)).value)
                && crashed == (|songs| == 0)
                && handed == (if crashed then old(handed) else old(handed) + [songs[0]])
                && current == (if crashed then old(current) else SongOf(songs[0], songCacheDir, picCacheDir))
    {
      param := param.(channel := channel);
      var res := Report(NEW);
      if res.Err? {
        return;
      }
      currentChannel := channel;
      Install(res.value);
    }

    /** The body of Skip and Trash (report typ, replace the queue, hand over the head). */
    method ReplaceStep(typ: string)
      requires !crashed
      modifies this
      ensures param == old(param).(typ := typ, songId := old(Sid()))
      ensures sent == old(sent) + [Query(typ, old(param).channel - 1, old(param).source, old(Sid()))]
      ensures replies == Rest(old(replies)) && currentChannel == old(currentChannel)
      ensures NextAnswer(old(replies)).Err? ==>
                songs == old(songs) && current == old(current) && handed == old(handed) && !crashed
      ensures NextAnswer(old(replies)).Ok? ==>
                songs == Merged(false, old(songs), NextAnswer(old(replies)).value)
                && crashed == (|songs| == 0)
                && handed == (if crashed then old(handed) else old(handed) + [songs[0]])
                && current == (if crashed then old(current) else SongOf(songs[0], songCacheDir, picCacheDir))
    {
      var res := Report(typ);
      if res.Err? {
        return;
      }
      Install(res.value);
    }

    /** The body of reportLast and Rate (report typ, keep the head and append the answer). */
    method ExtendStep(typ: string)
      requires !crashed
      modifies this
      ensures param == old(param).(typ := typ, songId := old(Sid()))
      ensures sent == old(sent) + [Query(typ, old(param).channel - 1, old(param).source, old(Sid()))]
      ensures replies == Rest(old(replies))
      ensures currentChannel == old(currentChannel) && current == old(current) && handed == old(handed)
      ensures NextAnswer(old(replies)).Err? ==> songs == old(songs) && !crashed
      ensures NextAnswer(old(replies)).Ok? ==>
                var got := NextAnswer(old(replies)).value;
                crashed == (|old(songs)| == 0 && |got| > 0)
                && (!crashed ==> songs == Merged(true, old(songs), got))
    {
      var res := Report(typ);
      if res.Err? {
        return;
      }
      if |songs| == 0 && |res.value| > 0 {
        crashed := true;
        return;
      }
      var _ := AddSong(true, res.value);
    }

    /** The body of Next, before its deferred check: report the end and drop the head. */
    method NextStep()
      requires !crashed
      modifies this
      ensures param == old(param).(typ := END, songId := old(Sid()))
      ensures sent == old(sent) + [Query(END, old(param).channel - 1, old(param).source, old(Sid()))]
      ensures replies == Rest(old(replies)) && currentChannel == old(currentChannel)
      ensures NextAnswer(old(replies)).Err? ==>
                songs == old(songs) && current == old(current) && handed == old(handed) && !crashed
      ensures NextAnswer(old(replies)).Ok? ==>
                crashed == (|old(songs)| <= 1)
                && (|old(songs)| > 0 ==> songs == old(songs)[1..])
                && (!crashed ==> handed == old(handed) + [songs[0]]
                                 && current == SongOf(songs[0], songCacheDir, picCacheDir))
    {
      var res := Report(END);
      if res.Err? {
        return;
      }
      if |songs| == 0 {
        crashed := true;
        return;
      }
      songs := songs[1..];
      Show();
    }

    /**
     * check(): refresh the current song, then re-tune when the queue is empty and report the
     * last song when exactly one remains. With two or more songs it only refreshes.
     */
    method Check(fuel: nat)
      requires !crashed
      modifies this
      decreases fuel, 0
      ensures old(sent) <= sent && old(handed) <= handed
      ensures |old(songs)| >= 2 ==>
                songs == old(songs) && sent == old(sent) && handed == old(handed) && !crashed
                && currentChannel == old(currentChannel) && replies == old(replies)
                && current == SongOf(songs[0], songCacheDir, picCacheDir)
      ensures fuel > 0 && |old(songs)| == 0 ==>
                |sent| > |old(sent)| && sent[|old(sent)|].typ == NEW
                && sent[|old(sent)|].channel == old(param).channel - 1
      ensures fuel > 0 && |old(songs)| == 1 ==>
                |sent| > |old(sent)| && sent[|old(sent)|].typ == LAST
      ensures fuel > 0 && |old(songs)| <= 1 && Healthy(old(replies)) ==> !crashed && |songs| >= 2
      ensures fuel > 0 && |old(songs)| == 1 && Healthy(old(replies)) ==>
                songs == [old(songs)[0]] + old(replies)[0].value.songs
    {
      var _ := Current();
      if fuel == 0 {
        return;
      }
      if |songs| == 0 {
        Tune(param.channel, fuel - 1);
      } else if |songs| == 1 {
        ReportLast(fuel - 1);
      }
    }

    /** Tune(channel): change channel, then check. */
    method Tune(channel: int, fuel: nat)
      requires !crashed
      modifies this
      decreases fuel, 1
      ensures old(sent) <= sent && |sent| > |old(sent)| && old(handed) <= handed
      ensures sent[|old(sent)|] == Query(NEW, channel - 1, old(param).source, old(Sid()))
      ensures Healthy(old(replies)) ==>
                !crashed && currentChannel == channel && songs == old(replies)[0].value.songs
                && handed == old(handed) + [songs[0]]
    {
      TuneStep(channel);
      if !crashed {
        Check(fuel);
      }
    }

    /** Skip(): replace the queue with a fresh list, then check. */
    method Skip(fuel: nat)
      requires !crashed
      modifies this
      ensures old(sent) <= sent && |sent| > |old(sent)| && sent[|old(sent)|].typ == SKIP
      ensures Healthy(old(replies)) ==>
                !crashed && songs == old(replies)[0].value.songs && handed == old(handed) + [songs[0]]
    {
      ReplaceStep(SKIP);
      if !crashed {
        Check(fuel);
      }
    }

    /** Trash(): never play the current song again; replace the queue, then check. */
    method Trash(fuel: nat)
      requires !crashed
      modifies this
      ensures old(sent) <= sent && |sent| > |old(sent)| && sent[|old(sent)|].typ == BYPASS
      ensures Healthy(old(replies)) ==>
                !crashed && songs == old(replies)[0].value.songs && handed == old(handed) + [songs[0]]
    {
      ReplaceStep(BYPASS);
      if !crashed {
        Check(fuel);
      }
    }

    /** reportLast(): the head is the last song; ask for more, keep the head, then check. */
    method ReportLast(fuel: nat)
      requires !crashed && |songs| > 0
      modifies this
      decreases fuel, 1
      ensures old(sent) <= sent && |sent| > |old(sent)| && sent[|old(sent)|].typ == LAST
      ensures old(handed) <= handed
      ensures Healthy(old(replies)) ==>
                !crashed && songs == [old(songs)[0]] + old(replies)[0].value.songs
    {
      ExtendStep(LAST);
      if !crashed {
        Check(fuel);
      }
    }

    /** Rate(like): like or unlike the head, keep it and append the answer, then check. */
    method Rate(like: bool, fuel: nat)
      requires !crashed
      modifies this
      ensures old(sent) <= sent && |sent| > |old(sent)|
      ensures sent[|old(sent)|].typ == (if like then RATE else UNRATE)
      ensures |old(songs)| > 0 && Healthy(old(replies)) ==>
                !crashed && songs == [old(songs)[0]] + old(replies)[0].value.songs
    {
      ExtendStep(if like then RATE else UNRATE);
      if !crashed {
        Check(fuel);
      }
    }

    /** Next(): report the end of the head, move on to the next song, then check. */
    method Next(fuel: nat)
      requires !crashed
      modifies this
      ensures old(sent) <= sent && |sent| > |old(sent)| && sent[|old(sent)|].typ == END
      ensures NextAnswer(old(replies)).Err? && |old(songs)| >= 2 ==> !crashed && songs == old(songs)
      ensures NextAnswer(old(replies)).Ok? && |old(songs)| >= 3 ==>
                !crashed && songs == old(songs)[1..] && handed == old(handed) + [old(songs)[1]]
      ensures NextAnswer(old(replies)).Ok? && |old(songs)| == 2 && fuel > 0 && Healthy(Rest(old(replies))) ==>
                !crashed && songs == [old(songs)[1]] + Rest(old(replies))[0].value.songs
    {
      NextStep();
      if !crashed {
        Check(fuel);
      }
    }
  }
}
