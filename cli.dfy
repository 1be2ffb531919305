/**
 * The command-line front end: choosing the player by name, the startup tune, and what one
 * input line does. Reading standard input is left to the caller; each line is classified
 * into an action, and the action is carried out on the player.
 */
module Cli {
  import opened Wrappers
  import opened Text
  import Playback
  import Douban

  /** What one input line asks for. */
  datatype Action =
    | Nothing | Play | Next | Prev | Loop | Skip | Trash | Like | Unlike
    | ShowCurrent | ShowPlaylist | Login | Quit | Tune(ch: int) | ShowChannels | Help

  /** The characters trimmed from both ends of a line. */
  const Blanks: set<char> := {' ', '\n'}

  /** The letters that select an action by themselves. */
  const Keys: set<char> := {'p', 'n', 'b', 'x', 's', 't', 'r', 'u', 'c', 'l', 'z', 'q'}

  /** Printed once when the command loop starts. */
  const Banner := "Type h for help!\n"

  /** Printed before each line is read. */
  const Prompt := "gofm> "

  const HelpText :=
    "Command list:\n"
    + "\tp: \tPause or play\n"
    + "\tn: \tNext, next song\n"
    + "\tb:\tPrev, previous song\n"
    + "\tx:\tLoop, loop playback\n"
    + "\ts:\tSkip, skip current playlist\n"
    + "\tt: \tTrash, never play\n"
    + "\tr: \tLike\n"
    + "\tu:\tUnlike\n"
    + "\tc:\tCurrent playing info\n"
    + "\tl: \tPlaylist\n"
    + "\t0: \tChannel list\n"
    + "\tN:\tChange to Channel N, N stands for channel number, see channel list\n"
    + "\tz:\tLogin, Account login\n"
    + "\th:\tShow this help\n"
    + "\tq:\tQuit\n"

  /** The line as dispatched: blanks trimmed from both ends, then lower-cased. */
  function Normalize(line: string): (cmd: string)
    ensures |cmd| <= |line|
    ensures cmd == [] || (cmd[0] !in Blanks && cmd[|cmd| - 1] !in Blanks)
    ensures forall i :: 0 <= i < |cmd| ==> !('A' <= cmd[i] <= 'Z')
  {
    ToLower(Trim(line, Blanks))
  }

  /**
   * line[k..j] is what is left of line once every blank is cut from both ends: only blanks
   * lie outside it, and it is empty or starts and ends with a non-blank.
   */
  predicate TrimmedAt(line: string, k: int, j: int)
  {
    && 0 <= k <= j <= |line|
    && (forall i :: 0 <= i < k ==> line[i] in Blanks)
    && (forall i :: j <= i < |line| ==> line[i] in Blanks)
    && (k < j ==> line[k] !in Blanks && line[j - 1] !in Blanks)
  }

  /** What Normalize keeps: the lower-cased slice left once the blanks are cut from both ends. */
  lemma NormalizeSlice(line: string)
    ensures exists k, j :: TrimmedAt(line, k, j) && Normalize(line) == ToLower(line[k..j])
  {
    var left := TrimLeft(line, Blanks);
    var mid := TrimRight(left, Blanks);
    var k := |line| - |left|;
    var j := k + |mid|;
    assert line[k..] == left;
    assert line[k..j] == mid;
    assert forall i :: j <= i < |line| ==> line[i] == left[i - k];
    assert k < j ==> line[k] == mid[0] && line[j - 1] == mid[|mid| - 1];
    assert TrimmedAt(line, k, j);
  }

  /** A line already normalised is left as it is. */
  lemma NormalizeIdempotent(line: string)
    ensures Normalize(Normalize(line)) == Normalize(line)
  {
    var cmd := Normalize(line);
    assert TrimLeft(cmd, Blanks) == cmd;
    assert TrimRight(cmd, Blanks) == cmd;
    assert ToLower(cmd) == cmd;
  }

  /** A line that is not a single-letter command: a channel number, the channel list, or help. */
  function Numeric(cmd: string): (a: Action)
    ensures a.Tune? || a == ShowChannels || a == Help
  {
    match ParseInt32(cmd)
    case Some(ch) => if 0 < ch < Playback.CmdChannel then Tune(ch) else ShowChannels
    case None => Help
  }

  /** The action a key letter selects, for the letters that have one. */
  function KeyAction(c: char): (a: Option<Action>)
    ensures a.Some? <==> c in Keys
  {
    match c
    case 'p' => Some(Play)
    case 'n' => Some(Next)
    case 'b' => Some(Prev)
    case 'x' => Some(Loop)
    case 's' => Some(Skip)
    case 't' => Some(Trash)
    case 'r' => Some(Like)
    case 'u' => Some(Unlike)
    case 'c' => Some(ShowCurrent)
    case 'l' => Some(ShowPlaylist)
    case 'z' => Some(Login)
    case 'q' => Some(Quit)
    case _ => None
  }

  /** The action a normalised command selects: by its first character, else as a number. */
  function Select(cmd: string): Action
  {
    if |cmd| == 0 then Nothing
    else match KeyAction(cmd[0])
      case Some(a) => a
      case None => Numeric(cmd)
  }

  /** The action an input line selects. */
  function Classify(line: string): Action
  {
    Select(Normalize(line))
  }

  /** A number in decimal starts with a digit or a sign, never with a key letter. */
  lemma NumberHasNoKey(cmd: string)
    requires ParseDecimal(cmd).Some?
    ensures cmd != [] && cmd[0] !in Keys
  {
  }

  /** Only the empty command does nothing. */
  lemma SelectNothing(cmd: string)
    ensures Select(cmd) == Nothing <==> cmd == []
  {
  }

  /** A line of blanks normalises to the empty command, so it does nothing. */
  lemma BlankLine(line: string)
    requires forall i :: 0 <= i < |line| ==> line[i] in Blanks
    ensures Normalize(line) == [] && Classify(line) == Nothing
  {
    assert |TrimLeft(line, Blanks)| == 0;
  }

  /** Each key letter selects its own action, and no other command selects it. */
  lemma SelectKeys(cmd: string)
    ensures && (Select(cmd) == Play <==> cmd != [] && cmd[0] == 'p')
            && (Select(cmd) == Next <==> cmd != [] && cmd[0] == 'n')
            && (Select(cmd) == Prev <==> cmd != [] && cmd[0] == 'b')
            && (Select(cmd) == Loop <==> cmd != [] && cmd[0] == 'x')
            && (Select(cmd) == Skip <==> cmd != [] && cmd[0] == 's')
            && (Select(cmd) == Trash <==> cmd != [] && cmd[0] == 't')
            && (Select(cmd) == Like <==> cmd != [] && cmd[0] == 'r')
            && (Select(cmd) == Unlike <==> cmd != [] && cmd[0] == 'u')
            && (Select(cmd) == ShowCurrent <==> cmd != [] && cmd[0] == 'c')
            && (Select(cmd) == ShowPlaylist <==> cmd != [] && cmd[0] == 'l')
            && (Select(cmd) == Login <==> cmd != [] && cmd[0] == 'z')
            && (Select(cmd) == Quit <==> cmd != [] && cmd[0] == 'q')
  {
  }

  /** For a key letter only the first character counts: "pause" and "p" both play. */
  lemma FirstCharacterDecides(x: string, y: string)
    requires x != [] && y != [] && x[0] == y[0] && x[0] in Keys
    ensures Select(x) == Select(y)
  {
  }

  /**
   * A command that is a 32-bit decimal number n tunes to n when 0 < n < 100 and shows the
   * channel list otherwise; any other command without a key letter shows help.
   */
  lemma SelectNumbers(cmd: string)
    ensures forall n :: ParseInt32(cmd) == Some(n) ==>
              Select(cmd) == (if 0 < n < 100 then Tune(n) else ShowChannels)
    ensures Select(cmd) == Help <==> cmd != [] && cmd[0] !in Keys && ParseInt32(cmd).None?
    ensures Select(cmd).Tune? ==> 0 < Select(cmd).ch < 100 && ParseDecimal(cmd) == Some(Select(cmd).ch)
  {
    if ParseInt32(cmd).Some? {
      NumberHasNoKey(cmd);
    }
  }

  /** A line of digits followed by the line break the terminal delivers normalises to the digits. */
  lemma DigitLine(s: string)
    requires s != [] && AllDigits(s)
    ensures Normalize(s + "\n") == s
  {
    var line := s + "\n";
    assert line[0] == s[0] && IsDigit(s[0]);
    assert TrimLeft(line, Blanks) == line;
    assert line[..|line| - 1] == s;
    assert IsDigit(s[|s| - 1]);
    assert TrimRight(s, Blanks) == s;
    assert TrimRight(line, Blanks) == s;
    assert forall i :: 0 <= i < |s| ==> LowerChar(s[i]) == s[i];
    assert ToLower(s) == s;
  }

  /** Typing a channel number from 1 to 99 and a line break tunes to that channel. */
  lemma TypedChannel(n: int)
    requires 0 < n < 100
    ensures Classify(Itoa(n) + "\n") == Tune(n)
  {
    DigitLine(Itoa(n));
    ParseItoa(n);
    assert ParseInt32(Itoa(n)) == Some(n);
    SelectNumbers(Itoa(n));
  }

  /** The mailbox code an action sends, if it sends one. */
  function Command(a: Action): Option<int>
  {
    match a
    case Play => Some(Playback.CmdPlay)
    case Next => Some(Playback.CmdNext)
    case Prev => Some(Playback.CmdPrev)
    case Loop => Some(Playback.CmdLoop)
    case Skip => Some(Playback.CmdSkip)
    case Trash => Some(Playback.CmdTrash)
    case Like => Some(Playback.CmdLike)
    case Unlike => Some(Playback.CmdUnlike)
    case Tune(ch) => Some(ch)
    case _ => None
  }

  /**
   * Distinct actions send distinct codes, and the code sent is a channel number below
   * CmdChannel exactly for a tune (whose channel Select keeps between 1 and 99).
   */
  lemma CommandsDistinct(a: Action, b: Action)
    requires a.Tune? ==> 0 < a.ch < 100
    requires b.Tune? ==> 0 < b.ch < 100
    ensures Command(a).Some? && Command(a) == Command(b) ==> a == b
    ensures Command(a).Some? ==> (Command(a).value < Playback.CmdChannel <==> a.Tune?)
  {
  }

  /** New(name): the player for "douban", no player for any other name. */
  method New(name: string) returns (p: Douban.DoubanFM?)
    ensures p != null <==> name == "douban"
    ensures p != null ==> fresh(p) && p.Snapshot() == Douban.Initial() && p.player.slot == None
  {
    if name == "douban" {
      p := new Douban.DoubanFM();
    } else {
      p := null;
    }
  }

  /** The start of the command loop: tune to channel 1, then print the banner, before any input. */
  method Startup(p: Douban.DoubanFM) returns (printed: string)
    modifies p.player
    ensures p.player.slot == Playback.Offer(old(p.player.slot), 1)
    ensures printed == Banner
  {
    p.player.Tune(1);
    printed := Banner;
  }

  /** An action that sends a command: the matching wrapper offers its code to the mailbox. */
  method Queue(player: Playback.Player, a: Action)
    requires Command(a).Some?
    modifies player
    ensures player.slot == Playback.Offer(old(player.slot), Command(a).value)
  {
    match a
    case Play => player.Play();
    case Next => player.Next();
    case Prev => player.Prev();
    case Loop => player.Loop();
    case Skip => player.Skip();
    case Trash => player.Trash();
    case Like => player.Like();
    case Unlike => player.Unlike();
    case Tune(ch) => player.Tune(ch);
  }

  /** What carrying out one action printed, and whether the program ends. */
  datatype Outcome = Outcome(printed: string, quit: bool)

  /**
   * Carry out one action: queue its command, show the requested listing, log in (with the
   * service's answers as parameters), print help, or quit.
   */
  method Execute(p: Douban.DoubanFM, a: Action,
                 loginReply: Option<Douban.User>,
                 chlsReply: Option<(seq<Douban.LoginChannel>, seq<Douban.LoginChannel>)>)
    returns (out: Outcome)
    modifies p, p.gst, p.player
    ensures Command(a).Some? ==> p.player.slot == Playback.Offer(old(p.player.slot), Command(a).value)
    ensures Command(a).None? ==> p.player.slot == old(p.player.slot)
    ensures a.Login? ==> p.Snapshot() == Douban.LoggedIn(old(p.Snapshot()), loginReply, chlsReply)
    ensures !a.Login? ==> p.Snapshot() == old(p.Snapshot())
    ensures out.quit <==> a == Quit
    ensures a == ShowChannels ==>
              out.printed == Douban.Concat(Douban.ChannelLines(p.channels, p.channel)) + "\n"
    ensures a == ShowPlaylist ==>
              out.printed == Douban.Concat(Douban.PlaylistLines(p.playing, p.playlist)) + "\n"
    ensures a == ShowCurrent ==> out.printed == Douban.SongText(p.playing) + "\n"
    ensures a == Help ==> out.printed == HelpText + "\n"
    ensures a == Quit ==> out.printed == "Bye!\n"
    ensures a == Login ==>
              out.printed == (if |old(p.user.id)| > 0 then Douban.UserInfo(old(p.user)) + "\n" else "")
    ensures Command(a).Some? || a == Nothing ==> out.printed == ""
  {
    out := Outcome("", false);
    if Command(a).Some? {
      Queue(p.player, a);
      return;
    }
    if a == Login {
      var printed := p.Login(loginReply, chlsReply);
      out := Outcome(printed, false);
      return;
    }
    match a
    case Nothing =>
    case ShowCurrent => out := Outcome(p.Current() + "\n", false);
    case ShowPlaylist =>
      var text := p.Playlist();
      out := Outcome(text + "\n", false);
    case Quit => out := Outcome("Bye!\n", true);
    case ShowChannels =>
      var text := p.Channels();
      out := Outcome(text + "\n", false);
    case Help => out := Outcome(HelpText + "\n", false);
    case _ =>
  }

  /**
   * One pass of the command loop: print the prompt, read a line, and carry out the action it
   * selects. A blank line prints only the prompt and changes nothing.
   */
  method Turn(p: Douban.DoubanFM, line: string,
              loginReply: Option<Douban.User>,
              chlsReply: Option<(seq<Douban.LoginChannel>, seq<Douban.LoginChannel>)>)
    returns (out: Outcome)
    modifies p, p.gst, p.player
    ensures |Prompt| <= |out.printed| && out.printed[..|Prompt|] == Prompt
    ensures out.quit <==> Classify(line) == Quit
    ensures Command(Classify(line)).Some? ==>
              p.player.slot == Playback.Offer(old(p.player.slot), Command(Classify(line)).value)
    ensures Command(Classify(line)).None? ==> p.player.slot == old(p.player.slot)
    ensures Classify(line).Login? ==>
              p.Snapshot() == Douban.LoggedIn(old(p.Snapshot()), loginReply, chlsReply)
    ensures !Classify(line).Login? ==> p.Snapshot() == old(p.Snapshot())
    ensures Command(Classify(line)).Some? || Classify(line) == Nothing ==> out.printed == Prompt
    ensures Classify(line) == Help ==> out.printed == Prompt + HelpText + "\n"
    ensures Classify(line) == Quit ==> out.printed == Prompt + "Bye!\n"
  {
    var done := Execute(p, Classify(line), loginReply, chlsReply);
    out := Outcome(Prompt + done.printed, done.quit);
  }
}
