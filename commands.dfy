// The chat-command handler: each update advances the update offset; updates
// from the scanner's own chat are normalised (surrounding whitespace removed,
// lower-cased) and answered; /pause and /resume toggle the paused flag.
module Commands {
  import opened ArbTypes

  /** One chat update: its id, the chat it came from, and its text ("" when absent). */
  datatype Update = Update(updateId: int, chatId: string, text: string)

  datatype Command = Pause | Resume | Stats | Help | Other

  /** The state the handler reads and writes, and the messages it has sent. */
  datatype CommandState = CommandState(paused: bool, lastUpdateId: int, outbox: seq<Notice>)

  /** The characters Python's `str.strip()` removes. */
  predicate IsSpace(c: char) {
    || c == ' ' || c == '\t' || c == '\n' || c == '\r'
    || c == '\U{000B}' || c == '\U{000C}'
    || ('\U{001C}' <= c <= '\U{001F}')
    || c == '\U{0085}' || c == '\U{00A0}' || c == '\U{1680}'
    || ('\U{2000}' <= c <= '\U{200A}')
    || c == '\U{2028}' || c == '\U{2029}' || c == '\U{202F}' || c == '\U{205F}' || c == '\U{3000}'
  }

  predicate AllSpace(s: string) {
    forall i :: 0 <= i < |s| ==> IsSpace(s[i])
  }

  /** Leading whitespace removed. */
  function StripLeft(s: string): string
    decreases |s|
  {
    if s != [] && IsSpace(s[0]) then StripLeft(s[1..]) else s
  }

  /** Trailing whitespace removed. */
  function StripRight(s: string): string
    decreases |s|
  {
    if s != [] && IsSpace(s[|s| - 1]) then StripRight(s[..|s| - 1]) else s
  }

  function Strip(s: string): string {
    StripRight(StripLeft(s))
  }

  /** Lower-casing of ASCII letters; every other character is kept. */
  function LowerChar(c: char): char {
    if 'A' <= c <= 'Z' then (c as int + 32) as char else c
  }

  function Lower(s: string): string
    decreases |s|
  {
    if s == [] then [] else Lower(s[..|s| - 1]) + [LowerChar(s[|s| - 1])]
  }

  /** StripLeft keeps a suffix, drops only whitespace, and leaves no leading whitespace. */
  lemma {:induction false} StripLeftSpec(s: string)
    ensures var r := StripLeft(s);
      && |r| <= |s| && r == s[|s| - |r|..]
      && AllSpace(s[..|s| - |r|])
      && (r == [] || !IsSpace(r[0]))
    decreases |s|
  {
    if s != [] && IsSpace(s[0]) {
      StripLeftSpec(s[1..]);
    }
  }

  /** StripRight keeps a prefix, drops only whitespace, and leaves no trailing whitespace. */
  lemma {:induction false} StripRightSpec(s: string)
    ensures var r := StripRight(s);
      && |r| <= |s| && r == s[..|r|]
      && AllSpace(s[|r|..])
      && (r == [] || !IsSpace(r[|r| - 1]))
    decreases |s|
  {
    if s != [] && IsSpace(s[|s| - 1]) {
      var front := s[..|s| - 1];
      StripRightSpec(front);
      var r := StripRight(front);
      assert s[|r|..] == front[|r|..] + [s[|s| - 1]];
    }
  }

  /** Lower maps every character on its own and keeps the length. */
  lemma {:induction false} LowerSpec(s: string)
    ensures |Lower(s)| == |s|
    ensures forall i :: 0 <= i < |s| ==> Lower(s)[i] == LowerChar(s[i])
    decreases |s|
  {
    if s != [] {
      LowerSpec(s[..|s| - 1]);
    }
  }

  /** The command a text stands for, after `strip().lower()`. */
  function Parse(text: string): Command {
    var t := Lower(Strip(text));
    if t == "/pause" then Pause
    else if t == "/resume" then Resume
    else if t == "/stats" then Stats
    else if t == "/help" then Help
    else Other
  }

  /** The handling of one update by the scanner whose chat is `chat`. */
  function Step(st: CommandState, chat: string, u: Update): CommandState {
    var st1 := st.(lastUpdateId := u.updateId);
    if u.chatId != chat then st1
    else
      match Parse(u.text)
      case Pause =>
        if st.paused then st1.(outbox := st.outbox + [AlreadyPaused])
        else st1.(paused := true, outbox := st.outbox + [NowPaused])
      case Resume =>
        if !st.paused then st1.(outbox := st.outbox + [AlreadyActive])
        else st1.(paused := false, outbox := st.outbox + [NowResumed])
      case Stats => st1.(outbox := st.outbox + [StatsReport])
      case Help => st1.(outbox := st.outbox + [HelpText])
      case Other => st1
  }

  /** A batch of updates, handled in order. */
  function Process(st: CommandState, chat: string, us: seq<Update>): CommandState
    decreases |us|
  {
    if us == [] then st else Step(Process(st, chat, us[..|us| - 1]), chat, us[|us| - 1])
  }

  /** The updates of a batch that come from `chat`, in order. */
  function FromChat(chat: string, us: seq<Update>): seq<Update>
    decreases |us|
  {
    if us == [] then []
    else FromChat(chat, us[..|us| - 1]) + (if us[|us| - 1].chatId == chat then [us[|us| - 1]] else [])
  }

  /** An update from `chat` that asks to pause or to resume. */
  predicate IsToggle(chat: string, u: Update) {
    u.chatId == chat && (Parse(u.text) == Pause || Parse(u.text) == Resume)
  }

  /** The number of updates from `chat` carrying a recognised command. */
  function Answered(chat: string, us: seq<Update>): nat
    decreases |us|
  {
    if us == [] then 0
    else
      var u := us[|us| - 1];
      Answered(chat, us[..|us| - 1]) + (if u.chatId == chat && Parse(u.text) != Other then 1 else 0)
  }

  /** After a non-empty batch the offset is the last update's id, whichever chat it came from. */
  lemma ProcessLastUpdateId(st: CommandState, chat: string, us: seq<Update>)
    ensures Process(st, chat, us).lastUpdateId == if us == [] then st.lastUpdateId else us[|us| - 1].updateId
  {
  }

  /** A step's effect on the flag and the messages does not depend on the offset before it. */
  lemma StepIgnoresOffset(st1: CommandState, st2: CommandState, chat: string, u: Update)
    requires st1.paused == st2.paused && st1.outbox == st2.outbox
    ensures Step(st1, chat, u) == Step(st2, chat, u)
  {
  }

  /** Updates from other chats change nothing but the offset. */
  lemma {:induction false} ProcessIgnoresForeign(st: CommandState, chat: string, us: seq<Update>)
    ensures Process(st, chat, us).paused == Process(st, chat, FromChat(chat, us)).paused
    ensures Process(st, chat, us).outbox == Process(st, chat, FromChat(chat, us)).outbox
    decreases |us|
  {
    if us != [] {
      var front, u := us[..|us| - 1], us[|us| - 1];
      ProcessIgnoresForeign(st, chat, front);
      var p1, p2 := Process(st, chat, front), Process(st, chat, FromChat(chat, front));
      if u.chatId == chat {
        var own := FromChat(chat, front) + [u];
        assert FromChat(chat, us) == own && own[..|own| - 1] == FromChat(chat, front);
        assert Process(st, chat, FromChat(chat, us)) == Step(p2, chat, u);
        StepIgnoresOffset(p1, p2, chat, u);
      } else {
        assert FromChat(chat, us) == FromChat(chat, front) + [] == FromChat(chat, front);
        assert Process(st, chat, us) == p1.(lastUpdateId := u.updateId);
      }
    }
  }

  /** Without a /pause or /resume from the scanner's chat, the paused flag is unchanged. */
  lemma {:induction false} NoToggleKeepsPaused(st: CommandState, chat: string, us: seq<Update>)
    requires forall k :: 0 <= k < |us| ==> !IsToggle(chat, us[k])
    ensures Process(st, chat, us).paused == st.paused
    decreases |us|
  {
    if us != [] {
      NoToggleKeepsPaused(st, chat, us[..|us| - 1]);
    }
  }

  /** The last /pause or /resume from the scanner's chat decides the paused flag. */
  lemma {:induction false} LastToggleDecides(st: CommandState, chat: string, us: seq<Update>, i: nat)
    requires i < |us| && IsToggle(chat, us[i])
    requires forall k :: i < k < |us| ==> !IsToggle(chat, us[k])
    ensures Process(st, chat, us).paused == (Parse(us[i].text) == Pause)
    decreases |us|
  {
    if i < |us| - 1 {
      LastToggleDecides(st, chat, us[..|us| - 1], i);
    }
  }

  /** Every update from the scanner's chat with a recognised command is answered by exactly one message. */
  lemma {:induction false} ProcessAnswers(st: CommandState, chat: string, us: seq<Update>)
    ensures |Process(st, chat, us).outbox| == |st.outbox| + Answered(chat, us)
    ensures st.outbox <= Process(st, chat, us).outbox
    decreases |us|
  {
    if us != [] {
      ProcessAnswers(st, chat, us[..|us| - 1]);
    }
  }

  /**
   * /pause is idempotent: a second /pause leaves the scanner paused and
   * only answers that it already is; likewise for /resume.
   */
  lemma ToggleIdempotent(st: CommandState, chat: string, u1: Update, u2: Update)
    requires u1.chatId == chat && u2.chatId == chat
    requires Parse(u1.text) == Parse(u2.text) && (Parse(u1.text) == Pause || Parse(u1.text) == Resume)
    ensures var once := Step(st, chat, u1);
      var twice := Step(once, chat, u2);
      && once.paused == (Parse(u1.text) == Pause)
      && twice.paused == once.paused
      && twice.outbox == once.outbox + [if Parse(u1.text) == Pause then AlreadyPaused else AlreadyActive]
  {
  }

  lemma {:induction false} StripLeftSpaces(a: string, r: string)
    requires AllSpace(a) && (r == [] || !IsSpace(r[0]))
    ensures StripLeft(a + r) == r
    decreases |a|
  {
    if a != [] {
      assert (a + r)[1..] == a[1..] + r;
      StripLeftSpaces(a[1..], r);
    } else {
      assert a + r == r;
    }
  }

  lemma {:induction false} StripRightSpaces(r: string, b: string)
    requires AllSpace(b) && (r == [] || !IsSpace(r[|r| - 1]))
    ensures StripRight(r + b) == r
    decreases |b|
  {
    if b != [] {
      var front := b[..|b| - 1];
      assert (r + b)[..|r + b| - 1] == r + front;
      StripRightSpaces(r, front);
    } else {
      assert r + b == r;
    }
  }

  /**
   * Surrounding whitespace does not change a command: for a text `s`
   * that neither starts nor ends with whitespace, `a + s + b` with
   * all-whitespace `a` and `b` strips to `s` and parses as `s` does.
   */
  lemma StripPadding(a: string, s: string, b: string)
    requires AllSpace(a) && AllSpace(b)
    requires s == [] || (!IsSpace(s[0]) && !IsSpace(s[|s| - 1]))
    ensures Strip(s) == s && Strip(a + s + b) == s
    ensures Parse(a + s + b) == Parse(s)
  {
    if s == [] {
      assert a + s + b == (a + b) + [];
      assert AllSpace(a + b);
      StripLeftSpaces(a + b, []);
    } else {
      assert a + s + b == a + (s + b);
      StripLeftSpaces(a, s + b);
      StripRightSpaces(s, b);
    }
    StripLeftSpaces([], s);
    StripRightSpaces(s, []);
    assert [] + s == s && s + [] == s;
  }

  lemma LowerIs(s: string, t: string)
    requires |s| == |t|
    requires forall i :: 0 <= i < |s| ==> LowerChar(s[i]) == t[i]
    ensures Lower(s) == t
  {
    LowerSpec(s);
  }

  /** A command is recognised whatever its padding and case. */
  lemma ParsePaddedPause()
    ensures Parse(" /Pause\n") == Pause
  {
    assert " /Pause\n" == " " + "/Pause" + "\n";
    StripPadding(" ", "/Pause", "\n");
    LowerIs("/Pause", "/pause");
  }

  /** Upper case is folded. */
  lemma ParseUpperResume()
    ensures Parse("/RESUME") == Resume
  {
    assert [] + "/RESUME" + [] == "/RESUME";
    StripPadding([], "/RESUME", []);
    LowerIs("/RESUME", "/resume");
  }

  /** A command followed by other words is not a command. */
  lemma ParseTrailingWords()
    ensures Parse("/pause now") == Other
  {
    assert [] + "/pause now" + [] == "/pause now";
    StripPadding([], "/pause now", []);
    LowerSpec("/pause now");
    assert |Lower(Strip("/pause now"))| == 10;
  }
}
