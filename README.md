# gofm — a Dafny model of the Douban FM terminal radio

gofm is a command-line client for the Douban FM internet radio. The user types one-letter
commands at a prompt. The player asks the Douban service for playlists, plays the queued
tracks through GStreamer, and reports listening events (end, skip, trash, like) back to the
service. This project models the client's core in Dafny and proves what it promises.

- **`Playback`** (`player.go`) covers three things:
  - the integer command codes;
  - the one-slot command mailbox. Sending is non-blocking: a full mailbox drops the new command.
  - the GStreamer pipeline, reduced to the log of instructions it receives (stop, play,
    pause, set uri).
- **`Douban`** (`douban.go`) is the current engine, the class `Douban.DoubanFM`, with the Go
  fields:
  - the channel catalog, current channel number, paused and loop flags, queue, playing track
    and user;
  - the refill requests sent to the service.

  Each state-changing method is specified by a function on a value snapshot (`Fm`), and the
  lemmas state what those functions promise. The covered code is:
  - the command dispatcher `cmdLoop`, one command at a time;
  - the GStreamer bus handler `onMessage`;
  - `next`, `newPlaylist`, `getChannels`, `getLoginChls` and `Login`;
  - the listings `Channels`, `Playlist` and `Current`;
  - the channel-id normaliser.
- **`Gofm`** (`doubanfm.go`) is the older engine. In it the head of the queue is the current
  song, and a deferred `check` keeps the queue stocked:
  - it re-tunes when the queue is empty;
  - it reports the last song when one remains.

  The package-level request parameters become a field of the engine. The service is a script
  of answers consumed one per request. The mutual recursion `check` → `Tune` → `check` is
  bounded by a fuel argument. Go's index panics on an empty queue set a `crashed` flag that
  ends the run. The pure helpers are modelled with it:
  - the like-flag and duration normalisers;
  - the cache-path derivation;
  - the fixed channel table;
  - the `RandomStr` bound.
- **`Cli`** (`main.go`) covers:
  - choosing the player by name;
  - the startup tune to channel 1;
  - the classification of one input line into an action;
  - carrying out that action on the player.
- **`Text`** models the Go library functions the core relies on:
  - `strconv.Itoa`, `ParseInt` (32-bit) and `Atoi`;
  - `%x`, `%2d` and `%10s` padding;
  - `strings.Trim` and `ToLower`;
  - `filepath.Ext` and `Base`.

  **`Wrappers`** holds `Option` and `Result`.

Network answers are parameters: `None` stands for a transport failure. For the old engine, an
exhausted script answers with a failure.

Where the code and its documentation disagree, the model follows the code:

- A GStreamer error only issues a stop. It does not set the paused flag.
- The channels added after a login are appended without removing duplicates.
- The current engine's `OpLast` refill replaces the queue with the answer, like every other
  refill. It does not keep the old head.
- Like and Unlike set the playing track's like flag whether or not the refill succeeded.
- After a login, the current channel number is not adjusted for the channel put in front of
  the catalog.

## Model

| member | source | states |
|---|---|---|
| Playback.CodesConsecutive | player.go:9-23 | the thirteen command codes are CmdChannel + i, hence distinct and all at least 100, so never a channel number |
| Playback.Offer | player.go:55-60 | an empty slot takes the command; a full slot keeps its pending command and the new one is dropped |
| Playback.OfferCoalesces | player.go:55-60 | of two commands sent before the consumer receives, only the first is delivered |
| Playback.Player.constructor | douban.go:152 | the mailbox starts empty |
| Playback.Player.SendCmd | player.go:55-60 | the slot becomes Offer(old slot, cmd) |
| Playback.Player.Receive | douban.go:185 | the consumer gets the pending command and the slot is emptied |
| Playback.Player.Stop | player.go:62-64 | offers CmdStop to the mailbox |
| Playback.Player.Play | player.go:66-68 | offers CmdPlay |
| Playback.Player.Pause | player.go:70-72 | offers CmdPause |
| Playback.Player.Next | player.go:74-76 | offers CmdNext |
| Playback.Player.Prev | player.go:78-80 | offers CmdPrev |
| Playback.Player.Loop | player.go:82-84 | offers CmdLoop |
| Playback.Player.Skip | player.go:86-88 | offers CmdSkip |
| Playback.Player.Like | player.go:90-92 | offers CmdLike |
| Playback.Player.Unlike | player.go:94-96 | offers CmdUnlike |
| Playback.Player.Trash | player.go:98-100 | offers CmdTrash |
| Playback.Player.Tune | player.go:102-104 | offers the bare channel number, not a command code |
| Playback.Player.Login | player.go:118-120 | offers CmdLogin |
| Playback.Player.Playlist | player.go:106-108 | the base player has no playlist to show: "" |
| Playback.Player.Channels | player.go:110-112 | the base player has no catalog to show: "" |
| Playback.Player.Current | player.go:114-116 | the base player has no track to show: "" |
| Playback.Gstreamer.constructor | player.go:127-132 | a new pipeline has received no instruction |
| Playback.Gstreamer.Stop | player.go:143-145 | appends exactly one stop to the pipeline's instructions |
| Playback.Gstreamer.Play | player.go:147-149 | appends exactly one play |
| Playback.Gstreamer.Pause | player.go:151-153 | appends exactly one pause |
| Playback.Gstreamer.NewSource | player.go:155-159 | appends stop, set-uri(uri), play, in that order |
| Douban.ChannelIdCanonical | douban.go:55-63 | a string id is its own canonical form (idempotence); an int id and its decimal string agree; the form of an int id parses back to it, so distinct ints stay distinct; any other JSON value reads as id 0. Catalog entries loaded from the service decode `channel_id` into an untyped value, so a numeric id arrives as a floating-point number and takes this last path: all of them read as id 0. Only the red-star and login entries carry an int id |
| Douban.NextPopsHead | douban.go:227-234 | on a non-empty queue the returned song is the old head, it becomes the playing track and the old queue is that song followed by the new queue; on an empty queue the zero song is returned and nothing changes |
| Douban.RefillReplacesOnlyWhenNonEmpty | douban.go:297-336 | for every op the request for the current channel, track and user is sent; the queue is replaced wholesale exactly when the answer holds a song; the answer's size is returned, and 0 on a transport error; nothing else changes |
| Douban.CatalogReplacedOnlyWhenNonEmpty | douban.go:236-256 | the catalog is replaced only by a non-empty answer; the answer's size is returned; nothing else changes |
| Douban.CatalogNeverEmpty | douban.go:143-157 | the catalog starts with the seed entry; a refresh never empties a non-empty catalog; a login never shrinks it |
| Douban.CommandsKeepCatalog | douban.go:181-225 | no command changes the catalog or the user |
| Douban.EventsKeepCatalog | douban.go:159-179 | no bus event changes the catalog, the channel number or the user |
| Douban.ChannelStaysInCatalog | douban.go:217-222 | once the channel number designates a catalog entry it keeps doing so through every command, event and login; only a channel-number command within the catalog changes it, and to exactly that number |
| Douban.StopPlayLoop | douban.go:188-204 | Stop stops the pipeline and sets paused; Play plays a paused engine or pauses a playing one and flips the flag; Loop flips the loop flag; two Plays or two Loops restore the flag; none of them touches the queue or sends a request |
| Douban.NextCommand | douban.go:198-202 | Next hands the queue's head (the zero song's empty url if none) to the pipeline and asks for more with OpLast exactly when the queue is empty afterwards |
| Douban.RefillThenPlay | douban.go:205-222 | Skip, Trash and an in-catalog channel number send one refill (OpSkip, OpBypass, OpNew; the latter for the new channel) and then play the head of the resulting queue |
| Douban.LikeUnlike | douban.go:208-213 | Like and Unlike send their refill and set the playing track's like flag to 1 or 0 whatever the answer; the pipeline is not touched |
| Douban.OtherCodesAreChannels | douban.go:217-222 | CmdChannel, CmdPause, CmdPrev, CmdTune and CmdLogin have no case of their own; any such code beyond the catalog size is ignored |
| Douban.EndOfStreamLooping | douban.go:161-171 | end of stream while looping replays the playing track and leaves the queue alone; it sends OpLast only when the queue is empty |
| Douban.RefilledAndPlayedShape | douban.go:205-207 | a refill followed by play sends exactly one request, for the current channel, track and user; the queue is the answer when it holds songs and the old queue otherwise; its head is handed to the pipeline and its tail stays queued; an empty queue hands over the empty url and keeps the playing track |
| Douban.EndOfStreamAdvances | douban.go:160-171 | end of stream without looping reports OpEnd, plays the head of the resulting queue, then sends OpLast exactly when that queue is empty |
| Douban.ErrorOnlyStops | douban.go:171-178 | a pipeline error only appends a stop: paused flag, queue and track unchanged; other messages change nothing |
| Douban.LoginExtendsCatalog | douban.go:478-488 | a successful login sets the user and makes the catalog the extra channel, then the old catalog, then favourites, then recommendations, without deduplication; nothing else changes |
| Douban.LoginWithoutEffect | douban.go:432-489 | a login attempted while logged in changes nothing; a failed login changes nothing but the decoded user record; a failed channel-list request leaves only the extra channel added |
| Douban.LoginShiftsCurrentChannel | douban.go:480-486 | the channel number is not adjusted after the prepend, so it now designates the entry that used to sit one place before it |
| Douban.StartupTunesFirstChannel | douban.go:181-221 | after the catalog loads, the first command (channel 1) sends one OpNew refill for the first catalog entry, plays the first song returned and queues the rest |
| Douban.UserInfo | douban.go:428-430 | the user's id, then a space and a tab, then the name, and nothing else |
| Douban.SongTextLines | douban.go:86-103 | song.String() without line breaks inside its fields has one line per field, in the order Title, Artist, Alum, Public, Company, Url, Kbps, Like (eight, with the float Rate line left out), and the Url line shows the album link, which starts with "http" |
| Douban.FromLoginAll | douban.go:286-293 | each login channel becomes a catalog entry with an int id, in order |
| Douban.AlbumUrl | douban.go:93-96 | the album link always starts with "http" and ends with the album path |
| Douban.AlbumUrlNormal | douban.go:93-96 | prefixing is idempotent and leaves exactly the links already starting with "http" unchanged |
| Douban.ChannelsListing | douban.go:416-426 | one line per catalog entry numbered from 1; '+' at the marker position of exactly the current channel's line and '-' elsewhere; names and intros without line breaks give one line per channel |
| Douban.PlaylistListing | douban.go:402-414 | the playing track's line comes first when it has a song id, then one line per queued track in queue order |
| Douban.DoubanFM.constructor | douban.go:143-157 | the engine starts paused on channel 2 with the one-entry catalog, an empty queue and an empty mailbox |
| Douban.DoubanFM.Next | douban.go:227-234 | the new state and returned song are Popped of the old state |
| Douban.DoubanFM.NewPlaylist | douban.go:297-336 | the new state and count are Refilled of the old state, op and answer |
| Douban.DoubanFM.GetChannels | douban.go:236-256 | the new state and count are WithCatalog of the old state and answer |
| Douban.DoubanFM.GetLoginChls | douban.go:258-295 | both appending loops leave the catalog as the old catalog, then the favourites, then the recommendations |
| Douban.DoubanFM.Login | douban.go:432-489 | the new state is LoggedIn of the old state and the two answers; when a user is already logged in it prints the user info line and changes nothing, otherwise it prints nothing of its own |
| Douban.DoubanFM.PlayNext | douban.go:199 | pops the head and hands its url to the pipeline |
| Douban.DoubanFM.AdvanceNext | douban.go:198-202 | the CmdNext case: AdvancedNext of the old state |
| Douban.DoubanFM.RefillAndPlay | douban.go:205-207 | refill with op, then play the head |
| Douban.DoubanFM.Rate | douban.go:208-213 | refill with op, then set the like flag |
| Douban.DoubanFM.Dispatch | douban.go:181-225 | one iteration of the command loop: the new state is Dispatched of the old state, command and answers |
| Douban.DoubanFM.Serve | douban.go:183-185 | takes the pending command out of the mailbox (leaving it empty) and applies it; with no command nothing changes |
| Douban.DoubanFM.OnMessage | douban.go:159-179 | the new state is Handled of the old state, event and answers |
| Douban.DoubanFM.Channels | douban.go:416-426 | the text built by the loop is the concatenation of the channel lines |
| Douban.DoubanFM.Current | douban.go:398-400 | the playing track's description; when its text fields hold no line break it is one line per field shown (eight; the float Rate line is left out) |
| Douban.AppendSongLines | douban.go:409-412 | the loop over the queue appends exactly one "%s - %s (%s)" line per song, in queue order, after the lines already written |
| Douban.DoubanFM.Playlist | douban.go:402-414 | the text built by the loop is the concatenation of the playlist lines |
| Gofm.Like | doubanfm.go:151-178 | liked iff the value is a nonzero int or float, or a string that parses as a nonzero 64-bit integer |
| Gofm.DurationOf | doubanfm.go:180-199 | the duration is a whole number of seconds; an int length n gives n seconds |
| Gofm.DurationOfText | doubanfm.go:183-191 | an int length and the same number written as a string give the same duration |
| Gofm.CachePathShape | doubanfm.go:201-213 | a file is cached as dir + its last path segment exactly when its url ends with the extension, and the path keeps the extension; otherwise the path is "" |
| Gofm.CachePaths | doubanfm.go:201-213 | songPath is non-empty iff the url ends in ".mp3", and then is the song cache dir + the last segment; picPath likewise for ".jpg" and the picture cache dir |
| Gofm.DoubanFM.Channel | doubanfm.go:326-336 | the current-channel marker stands for the current channel; ok iff that number is in the table; ok gives the one-entry table for it, otherwise the whole table |
| Gofm.ChannelLookup | doubanfm.go:300-336 | the table holds exactly 1-11, 14-21, 23 and 27; a known channel gives its one-entry table and ok, any other gives the whole table and not ok; the current-channel marker looks up the current channel |
| Gofm.RandomStr | doubanfm.go:535-540 | for every non-negative random value the string is exactly ten hex digits |
| Gofm.Interpret | doubanfm.go:507-520 | the answer is songs iff the request succeeded with result 0; a nonzero result is an error carrying the server's message |
| Gofm.MergedShape | doubanfm.go:479-491 | no songs leave the queue alone; keep=false makes the queue exactly the songs; keep=true makes it the old head followed by the songs |
| Gofm.DoubanFM.constructor | doubanfm.go:269-298 | empty queue and current song, the fixed channel table, the default parameters, nothing sent or handed over |
| Gofm.DoubanFM.Sid | doubanfm.go:493-498 | the head's song id, or the last reported id when the queue is empty |
| Gofm.DoubanFM.Current | doubanfm.go:338-355 | an empty queue leaves the current song untouched; otherwise it becomes the head's fields (id, title, album, duration, like flag, cache paths) |
| Gofm.DoubanFM.AddSong | doubanfm.go:479-491 | the queue becomes Merged(keep, old queue, songs) and the count of songs is returned |
| Gofm.DoubanFM.PlayList | doubanfm.go:501-521 | one request with the wire channel number (channel - 1) is sent and the next answer is taken |
| Gofm.DoubanFM.Hand | doubanfm.go:379 | hands the head to the player goroutine, or crashes on an empty queue |
| Gofm.DoubanFM.Show | doubanfm.go:378-379 | refreshes the current song from the head and hands the head to the player; an empty queue crashes and changes nothing else |
| Gofm.DoubanFM.Install | doubanfm.go:377-379 | the queue becomes the answer when it holds songs (else stays), then its head is shown and handed over, crashing on an empty queue |
| Gofm.DoubanFM.Report | doubanfm.go:385-389 | sets the report type and the head's id, then requests |
| Gofm.DoubanFM.TuneStep | doubanfm.go:362-380 | sends NEW for the channel; on error nothing else changes; on success the channel becomes current, the queue is replaced by a non-empty answer and the head is shown and handed over, and an empty queue crashes |
| Gofm.DoubanFM.ReplaceStep | doubanfm.go:383-397 | the body of Skip and Trash: report, replace the queue with a non-empty answer, show and hand over the head; error leaves everything else unchanged |
| Gofm.DoubanFM.ExtendStep | doubanfm.go:400-432 | the body of reportLast and Rate: report, keep the head and append the answer; an empty queue with a non-empty answer crashes |
| Gofm.DoubanFM.NextStep | doubanfm.go:452-466 | reports END; on success exactly the head is dropped and the new head is shown and handed over, crashing when fewer than two songs were queued; on error the queue is unchanged |
| Gofm.DoubanFM.Check | doubanfm.go:468-476 | with two or more songs only the current song is refreshed; with none the first new request is NEW for the default channel; with one it is LAST; a healthy next answer leaves at least two songs |
| Gofm.DoubanFM.Tune | doubanfm.go:362-380 | first request NEW for channel - 1 with the head's id; a healthy answer makes it the current channel and the answer the queue, with its head handed over |
| Gofm.DoubanFM.Skip | doubanfm.go:383-397 | first request SKIP; a healthy answer becomes the queue and its head is handed over |
| Gofm.DoubanFM.Trash | doubanfm.go:435-449 | first request BYPASS; a healthy answer becomes the queue and its head is handed over |
| Gofm.DoubanFM.ReportLast | doubanfm.go:400-413 | first request LAST; a healthy answer is appended after the kept head |
| Gofm.DoubanFM.Rate | doubanfm.go:416-432 | first request RATE or UNRATE; a healthy answer is appended after the kept head |
| Gofm.DoubanFM.Next | doubanfm.go:452-466 | first request END; on error a queue of two or more is unchanged; on success with three or more exactly the head is dropped and the next is handed over; with two, a healthy LAST answer follows the new head |
| Cli.Normalize | main.go:40 | the dispatched line has no leading or trailing space or line break and no upper-case letter |
| Cli.NormalizeSlice | main.go:40 | the dispatched command is the lower-cased slice of the line left once every space and line break is cut from both ends: only blanks lie outside it, and it is empty or starts and ends with a non-blank |
| Cli.NormalizeIdempotent | main.go:40 | normalising twice is normalising once |
| Cli.Numeric | main.go:71-84 | a line without a key letter tunes, shows the channel list, or shows help |
| Cli.KeyAction | main.go:45-70 | a character selects an action by itself exactly when it is one of the twelve key letters p n b x s t r u c l z q |
| Cli.SelectNothing | main.go:42-44 | a command does nothing iff it is empty |
| Cli.BlankLine | main.go:40-44 | a line made only of spaces and line breaks normalises to the empty command and does nothing |
| Cli.SelectKeys | main.go:45-70 | each key letter at the head of a command selects its own action, and that action is selected by no command with another first character |
| Cli.FirstCharacterDecides | main.go:45 | for a command starting with a key letter only the first character counts |
| Cli.SelectNumbers | main.go:71-84 | a 32-bit decimal n tunes to n when 0 < n < 100 and shows the channel list otherwise; help iff the command has no key letter and is not such a number; a tune is always to the number typed |
| Cli.DigitLine | main.go:39-40 | a line of digits followed by its line break normalises to the digits |
| Cli.TypedChannel | main.go:39-78 | typing a channel number 1-99 with its line break tunes to that channel |
| Cli.CommandsDistinct | main.go:45-78 | distinct actions send distinct mailbox codes; a code below CmdChannel is sent exactly for a tune |
| Cli.Queue | main.go:46-61 | the action's wrapper offers exactly the action's code to the mailbox |
| Cli.New | main.go:24-30 | "douban" gives a fresh current engine in its initial state; any other name gives no player |
| Cli.Startup | main.go:33-36 | channel 1 is offered to the mailbox, then the banner "Type h for help!" is printed, before any input |
| Cli.Execute | main.go:45-85 | the action's code is offered to the mailbox; listings print the engine's text; login changes the engine as LoggedIn and, when a user was already logged in, prints that user's id and name; help and quit print their text; only quit ends the loop |
| Cli.Turn | main.go:37-85 | each pass prints the prompt "gofm> " before anything else; the line read selects its action through Normalize and Select and has the same effect as Execute on the mailbox and the engine; a command, or a blank line, prints only the prompt; help and quit print their text after it; only a quit line ends the loop |

## Left out

- HTTP transport is not modelled: the request plumbing, the proxy dialing, the cookie and the
  query-string encoding. The request parameters kept are the type, channel, song id and user
  (current engine) and the type, wire channel, source and song id (old engine).
- JSON decoding is not modelled. Decoded records are inputs, and a channel id is a tagged
  variant. An undecodable body counts as an empty answer, as Go's zero value does.
- The login exchange, the credential prompts ("Douban ID: ", "Password: ") and the captcha
  handling are input and output.
  `Douban.DoubanFM.Login` takes the decoded answers as parameters.
- GStreamer is reduced to its instruction log. The bus callback runs as a sequential event
  handler, and its race with the command loop is not modelled.
- Goroutines are not modelled. The command loop is one `Serve` at a time. The old engine's
  download-and-play goroutine is the log of songs handed to it (`handed`). The download and its
  `current.Sid` checks are not modelled.
- The filesystem, logging and downloads (`init`, `picResource` and `songResource`) are not
  modelled.
- Reading standard input is not modelled. `Cli.Classify` works on one line as read.
- Floating point is left out:
  - `RatingAvg` and the Rate line of `song.String`;
  - `PlayTime` and `lastDuration`;
  - `preventCache`.
- A float64 value is represented by its truncation toward zero.
- Randomness is left out. `Gofm.RandomStr` takes the random value as a parameter, and seeding
  is not modelled.
- `Gofm.DurationOf`: for a string length, only plain decimal integers are read. The other forms
  `strconv.ParseFloat` accepts (fractions, exponents, hex floats, Inf) are read as 0. The
  64-bit overflow of `Duration * time.Second` is not modelled.
- `Gofm.DoubanFM.Check`: the recursion `check` → `Tune` → `check` is bounded by a fuel argument.
  When the fuel runs out the check stops, where Go would keep re-tuning.
- `Gofm.DoubanFM.Tune`: a Go panic on an empty queue (at `&dfm.songs[0]`, or `songs[1:]` in
  `Next`) sets `crashed` and stops. The deferred check that Go still runs while panicking is not
  modelled.
- `Gofm.DoubanFM.Current` returns the Song by value. The pointer aliasing of `dfm.current`
  between the engine and the goroutine is not modelled.
- `Gofm.DoubanFM.Channel` is a plain lookup. `CHANNEL_CURRENT`, `ChannelList` and `Song` are
  declared outside doubanfm.go. The model gives them stand-ins: 0, a map, and the fields the
  engine fills.
- `Gofm.DoubanFM.Pre` is empty in the source and is not modelled.
- `Douban.DoubanFM.Dispatch` and `Douban.DoubanFM.OnMessage` require that the channel number
  designates a catalog entry whenever a refill is due. Go would panic there.
  `Douban.ChannelStaysInCatalog` shows that the requirement is kept once it holds.
- `Cli.Normalize`: lower-casing covers ASCII letters only. Unicode case mapping is not modelled.
- The main loop is modelled one pass at a time, as `Cli.Turn`, not as an endless loop over
  standard input. The read line is a parameter, printed text is returned, and exiting the
  process is the quit flag.
- The test file doubanfm_test.go calls functions that do not exist in doubanfm.go. Only its
  `RandomStr` length check is reflected, by `Gofm.RandomStr`.
