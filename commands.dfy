/** The command router: which incoming group messages are commands for the bot, the permission
    gate in front of them, and the handler each command reaches. `Route` states what one message
    makes the bot do; `HandleCommand` does it step by step. */
module Router {
  import opened Text
  import opened Transport
  import opened Utils
  import opened CommandPermissions
  import opened Handlers
  import opened Moderation

  /** The parts of an incoming message the router reads; an absent text field is "". */
  datatype Inbound = Inbound(
    key: MessageKey,
    conversation: string,
    extendedText: string,
    imageCaption: string,
    videoCaption: string,
    mentionedJids: seq<string>)

  /** The first non-empty of the plain text, the extended text, the image caption and the video
      caption, tried in that order. */
  function MessageText(m: Inbound): (text: string)
    ensures text == "" <==>
      m.conversation == "" && m.extendedText == "" && m.imageCaption == "" && m.videoCaption == ""
    ensures text in [m.conversation, m.extendedText, m.imageCaption, m.videoCaption]
    ensures m.conversation != "" ==> text == m.conversation
    ensures m.conversation == "" && m.extendedText != "" ==> text == m.extendedText
    ensures m.conversation == "" && m.extendedText == "" && m.imageCaption != "" ==>
      text == m.imageCaption
    ensures m.conversation == "" && m.extendedText == "" && m.imageCaption == "" ==>
      text == m.videoCaption
  {
    if m.conversation != "" then m.conversation
    else if m.extendedText != "" then m.extendedText
    else if m.imageCaption != "" then m.imageCaption
    else m.videoCaption
  }

  /** `key.participant || key.remoteJid`: who sent the message. */
  function SenderId(key: MessageKey): (id: string)
    ensures key.participant != "" ==> id == key.participant
    ensures key.participant == "" ==> id == key.remoteJid
  {
    if key.participant != "" then key.participant else key.remoteJid
  }

  /** Whether the bot is addressed: its id among the mentions, any mention holding its number, or
      "@<number>" in the text. server.js also looks for `botNumber`, which it sets to the id itself,
      so its extra test repeats the first one; and since the id holds the number, the id test is
      itself covered by the number test. */
  predicate BotMentioned(v: Variant, text: string, mentions: seq<string>)
    ensures BotMentioned(v, text, mentions) <==>
      (exists j :: j in mentions && Contains(j, BotNumber)) || Contains(text, "@" + BotNumber)
  {
    assert BotJid[..|BotNumber|] == BotNumber;
    ContainsAt(BotJid, BotNumber, 0);
    BotJid in mentions
    || (v == Monolithic && BotJid in mentions)
    || (exists j :: j in mentions && Contains(j, BotNumber))
    || Contains(text, "@" + BotNumber)
  }

  /** Both bots decide the mention alike. */
  lemma BotMentionedByNumber(text: string, mentions: seq<string>)
    ensures BotMentioned(Modular, text, mentions) == BotMentioned(Monolithic, text, mentions)
  {
  }

  // ---------------------------------------------------------------- parsing

  /** The length of the run of digits `s` starts with: what `\d+` takes. */
  function DigitRun(s: string): (n: nat)
    ensures n <= |s|
    ensures forall i :: 0 <= i < n ==> IsDigit(s[i])
    ensures n < |s| ==> !IsDigit(s[n])
  {
    if |s| > 0 && IsDigit(s[0]) then 1 + DigitRun(s[1..]) else 0
  }

  /** `text.replace(/@\d+/g, "")`: every '@' followed by digits is removed with all those digits,
      scanning left to right. */
  function StripMentions(s: string): (r: string)
    ensures |r| <= |s|
    decreases |s|
  {
    if |s| == 0 then ""
    else if s[0] == '@' && |s| > 1 && IsDigit(s[1]) then StripMentions(s[1 + DigitRun(s[1..])..])
    else [s[0]] + StripMentions(s[1..])
  }

  /** The result starts with a digit only when the input does. */
  lemma {:induction false} StripMentionsHead(s: string)
    ensures |StripMentions(s)| > 0 && IsDigit(StripMentions(s)[0]) ==> |s| > 0 && IsDigit(s[0])
    decreases |s|
  {
    if |s| > 0 {
      if s[0] == '@' && |s| > 1 && IsDigit(s[1]) {
        var rest := s[1 + DigitRun(s[1..])..];
        StripMentionsHead(rest);
      }
    }
  }

  /** No mention survives: no '@' of the result is followed by a digit. */
  lemma {:induction false} StripMentionsLeavesNone(s: string)
    ensures forall i :: 0 <= i < |StripMentions(s)| - 1 && StripMentions(s)[i] == '@' ==> !IsDigit(StripMentions(s)[i + 1])
    decreases |s|
  {
    if |s| > 0 {
      if s[0] == '@' && |s| > 1 && IsDigit(s[1]) {
        StripMentionsLeavesNone(s[1 + DigitRun(s[1..])..]);
      } else {
        var rest := StripMentions(s[1..]);
        StripMentionsLeavesNone(s[1..]);
        StripMentionsHead(s[1..]);
        var r := StripMentions(s);
        assert r == [s[0]] + rest;
        forall i | 0 <= i < |r| - 1 && r[i] == '@'
          ensures !IsDigit(r[i + 1])
        {
          if i > 0 {
            assert r[i] == rest[i - 1] && r[i + 1] == rest[i];
          }
        }
      }
    }
  }

  /** A text with no mention left is unchanged. */
  lemma {:induction false} StripMentionsKeepsClean(s: string)
    requires forall i :: 0 <= i < |s| - 1 && s[i] == '@' ==> !IsDigit(s[i + 1])
    ensures StripMentions(s) == s
    decreases |s|
  {
    if |s| > 0 {
      assert forall i :: 0 <= i < |s[1..]| - 1 && s[1..][i] == '@' ==> !IsDigit(s[1..][i + 1]) by {
        forall i | 0 <= i < |s[1..]| - 1 && s[1..][i] == '@'
          ensures !IsDigit(s[1..][i + 1])
        {
          assert s[i + 1] == '@';
        }
      }
      StripMentionsKeepsClean(s[1..]);
      assert s == [s[0]] + s[1..];
    }
  }

  /** Stripping twice strips nothing more. */
  lemma StripMentionsIdempotent(s: string)
    ensures StripMentions(StripMentions(s)) == StripMentions(s)
  {
    StripMentionsLeavesNone(s);
    StripMentionsKeepsClean(StripMentions(s));
  }

  /** A text without '@' holds no mention and is left as it is. */
  lemma {:induction false} StripMentionsNoAt(s: string)
    requires '@' !in s
    ensures StripMentions(s) == s
    decreases |s|
  {
    if |s| > 0 {
      assert s == [s[0]] + s[1..];
      StripMentionsNoAt(s[1..]);
    }
  }

  /** A digit run does not reach past a non-digit. */
  lemma {:induction false} DigitRunConcat(x: string, y: string)
    requires y == [] || !IsDigit(y[0])
    ensures DigitRun(x + y) == DigitRun(x)
    decreases |x|
  {
    if |x| > 0 {
      assert (x + y)[1..] == x[1..] + y;
      DigitRunConcat(x[1..], y);
    }
  }

  /** Stripping works piece by piece: text outside a mention is kept, as long as the cut does not
      split a run of digits. */
  lemma {:induction false} StripMentionsConcat(a: string, b: string)
    requires b == [] || !IsDigit(b[0])
    ensures StripMentions(a + b) == StripMentions(a) + StripMentions(b)
    decreases |a|
  {
    var s := a + b;
    if a == [] {
      assert s == b;
    } else if a[0] == '@' && |a| > 1 && IsDigit(a[1]) {
      var n := DigitRun(a[1..]);
      assert s[1..] == a[1..] + b;
      DigitRunConcat(a[1..], b);
      assert s[1 + n..] == a[1 + n..] + b;
      StripMentionsConcat(a[1 + n..], b);
      assert StripMentions(s) == StripMentions(s[1 + n..]);
      assert StripMentions(a) == StripMentions(a[1 + n..]);
    } else {
      assert !(s[0] == '@' && |s| > 1 && IsDigit(s[1])) by {
        if |a| == 1 && |s| > 1 {
          assert s[1] == b[0];
        }
      }
      assert s[1..] == a[1..] + b;
      StripMentionsConcat(a[1..], b);
      assert StripMentions(s) == [a[0]] + StripMentions(a[1..] + b);
      assert StripMentions(a) == [a[0]] + StripMentions(a[1..]);
    }
  }

  /** Illustration: the text around a mention survives. */
  lemma StripMentionKeepsSurroundings()
    ensures StripMentions("a@1b") == "ab"
  {
    assert "a@1b" == "a" + ("@1" + "b");
    StripMentionsConcat("a", "@1" + "b");
    StripLeadingMention("1", "b");
    StripMentionsNoAt("a");
    StripMentionsNoAt("b");
  }

  /** A mention at the front is removed whole. */
  lemma StripLeadingMention(digits: string, rest: string)
    requires |digits| > 0 && forall i :: 0 <= i < |digits| ==> IsDigit(digits[i])
    requires rest == [] || !IsDigit(rest[0])
    ensures StripMentions("@" + digits + rest) == StripMentions(rest)
  {
    var s := "@" + digits + rest;
    var t := digits + rest;
    assert s == ['@'] + t;
    assert s[1..] == t;
    assert IsDigit(t[0]);
    DigitRunOf(digits, rest);
    assert t[|digits|..] == rest;
    assert StripMentions(s) == StripMentions(s[1 + DigitRun(s[1..])..]);
  }

  lemma {:induction false} DigitRunOf(digits: string, rest: string)
    requires forall i :: 0 <= i < |digits| ==> IsDigit(digits[i])
    requires rest == [] || !IsDigit(rest[0])
    ensures DigitRun(digits + rest) == |digits|
    decreases |digits|
  {
    if |digits| > 0 {
      assert (digits + rest)[1..] == digits[1..] + rest;
      DigitRunOf(digits[1..], rest);
    } else {
      assert digits + rest == rest;
    }
  }

  /** A command and the words after it. */
  datatype Invocation = Invocation(command: string, args: seq<string>)

  /** `parts.findIndex(part => part.startsWith("/"))`, with None for -1. */
  function FirstCommand(parts: seq<string>): (r: Option<nat>)
    ensures r.None? <==> forall i :: 0 <= i < |parts| ==> !StartsWith(parts[i], "/")
    ensures r.Some? ==> (r.value < |parts| && StartsWith(parts[r.value], "/")
      && forall j :: 0 <= j < r.value ==> !StartsWith(parts[j], "/"))
  {
    if |parts| == 0 then None
    else if StartsWith(parts[0], "/") then Some(0)
    else
      match FirstCommand(parts[1..])
      case None => None
      case Some(i) => Some(i + 1)
  }

  /** The words of a text: mentions removed, white space trimmed, split at single spaces. */
  function Words(text: string): (r: seq<string>)
    ensures |r| >= 1 && forall k :: 0 <= k < |r| ==> ' ' !in r[k]
    ensures Join(r, " ") == Trim(StripMentions(text))
  {
    JoinSplit(Trim(StripMentions(text)), ' ');
    Split(Trim(StripMentions(text)), ' ')
  }

  /** The command of a text: the first word starting with '/' is the command and the words after
      it, whatever they start with, are its arguments. */
  function ParseCommand(text: string): (r: Option<Invocation>)
    ensures r.Some? ==> StartsWith(r.value.command, "/") && ' ' !in r.value.command
    ensures r.Some? ==> forall k :: 0 <= k < |r.value.args| ==> ' ' !in r.value.args[k]
    ensures r.None? <==> forall k :: 0 <= k < |Words(text)| ==> !StartsWith(Words(text)[k], "/")
    ensures r.Some? ==> exists i :: (0 <= i < |Words(text)| && Words(text)[i] == r.value.command
      && r.value.args == Words(text)[i + 1..] && forall k :: 0 <= k < i ==> !StartsWith(Words(text)[k], "/"))
  {
    var parts := Words(text);
    match FirstCommand(parts)
    case None => None
    case Some(i) => Some(Invocation(parts[i], parts[i + 1..]))
  }

  /** A space and a word without '@' lose nothing to mention stripping. */
  lemma StripSpacedWord(word: string)
    requires '@' !in word
    ensures StripMentions(" " + word) == " " + word
  {
    var t := " " + word;
    assert forall i :: 0 <= i < |t| ==> t[i] != '@' by {
      forall i | 0 <= i < |t|
        ensures t[i] != '@'
      {
        if i > 0 {
          assert t[i] == word[i - 1];
        }
      }
    }
    StripMentionsKeepsClean(t);
  }

  /** One leading space before a word that ends in a non-space is trimmed away. */
  lemma TrimSpacedWord(word: string)
    requires |word| > 0 && !IsSpace(word[0]) && !IsSpace(word[|word| - 1])
    ensures Trim(" " + word) == word
  {
    var t := " " + word;
    assert t[1..] == word;
    assert LeadingSpace(t) == 1;
    assert TrailingSpace(t) == 0;
  }

  /** "@<digits> /cmd" — the bot addressed by number, then a command word — parses to that command. */
  lemma MentionThenCommand(digits: string, word: string)
    requires |digits| > 0 && forall i :: 0 <= i < |digits| ==> IsDigit(digits[i])
    requires StartsWith(word, "/") && ' ' !in word && '@' !in word && !IsSpace(word[|word| - 1])
    ensures ParseCommand("@" + digits + " " + word) == Some(Invocation(word, []))
  {
    var text := "@" + digits + " " + word;
    assert text == "@" + digits + (" " + word);
    StripLeadingMention(digits, " " + word);
    StripSpacedWord(word);
    assert StripMentions(text) == " " + word;
    assert word[0] == '/';
    TrimSpacedWord(word);
    SplitNoSep(word, ' ');
    var parts := Words(text);
    assert parts == [word];
    assert FirstCommand(parts) == Some(0);
  }

  /** The command a message gives, if it is one the bot reads at all: it has text, the text holds a
      '/', a text holding an '@' must address the bot, and some word must start with '/'. */
  function Invoked(v: Variant, m: Inbound): (r: Option<Invocation>)
    ensures r.Some? ==> MessageText(m) != "" && Contains(MessageText(m), "/")
    ensures r.Some? && Contains(MessageText(m), "@") ==> BotMentioned(v, MessageText(m), m.mentionedJids)
    ensures r.Some? ==> r == ParseCommand(MessageText(m))
    ensures MessageText(m) == "" || !Contains(MessageText(m), "/") ==> r.None?
    ensures (MessageText(m) != "" && Contains(MessageText(m), "/")
      && (Contains(MessageText(m), "@") ==> BotMentioned(v, MessageText(m), m.mentionedJids))) ==>
      r == ParseCommand(MessageText(m))
  {
    var text := MessageText(m);
    if text == "" then None
    else if !Contains(text, "/") then None
    else if Contains(text, "@") && !BotMentioned(v, text, m.mentionedJids) then None
    else ParseCommand(text)
  }

  // ---------------------------------------------------------------- the permission gate

  const NotAvailableLead: string := "⛔ *Command Not Available*\n\nThe command "
  const AccessDeniedLead: string := "🔒 *Access Denied*\n\nThe command "

  const NotAvailableTail: string := " is not available in this group.\n\nUse /help to see available commands."
  const AccessDeniedTail: string := " is restricted to group admins only."

  function NotAvailable(command: string): (t: string)
    ensures StartsWith(t, NotAvailableLead + command)
  {
    StartsWithConcat(NotAvailableLead + command, NotAvailableTail);
    NotAvailableLead + command + NotAvailableTail
  }

  function AccessDenied(command: string): (t: string)
    ensures StartsWith(t, AccessDeniedLead + command)
  {
    StartsWithConcat(AccessDeniedLead + command, AccessDeniedTail);
    AccessDeniedLead + command + AccessDeniedTail
  }

  /** The refusal a command meets, if any: not available in the group, or admin-only and the
      sender not an admin. The check uses the command as written; only the dispatch lower-cases
      it. */
  function Refusal(p: Policy, meta: Metadata, m: Inbound, inv: Invocation): (r: Option<Outbound>)
    ensures r.None? <==> (IsCommandAllowed(p, m.key.remoteJid, inv.command)
      && (IsAdminRequired(p, m.key.remoteJid, inv.command) ==> IsUserAdmin(meta, SenderId(m.key))))
    ensures r.Some? && !IsCommandAllowed(p, m.key.remoteJid, inv.command) ==>
      r.value == Text(m.key.remoteJid, NotAvailable(inv.command), [])
    ensures r.Some? && IsCommandAllowed(p, m.key.remoteJid, inv.command) ==>
      r.value == Text(m.key.remoteJid, AccessDenied(inv.command), [])
  {
    var group := m.key.remoteJid;
    if !IsCommandAllowed(p, group, inv.command) then Some(Text(group, NotAvailable(inv.command), []))
    else if IsAdminRequired(p, group, inv.command) && !IsUserAdmin(meta, SenderId(m.key)) then
      Some(Text(group, AccessDenied(inv.command), []))
    else None
  }

  // ---------------------------------------------------------------- dispatch

  /** How a bot is set up: its variant (which fixes its wording), its permission policy, the groups
      with moderation on, its lines for /abuse and its audio folder. */
  datatype Bot = Bot(
    variant: Variant,
    policy: Policy,
    moderationGroups: seq<string>,
    lines: seq<string>,
    audioFolder: string)

  /** The bot as each source file sets it up, given its /abuse lines and audio folder. */
  function Shipped(v: Variant, lines: seq<string>, audioFolder: string): (b: Bot)
    ensures b.variant == v && b.policy == PolicyOf(v) && b.moderationGroups == []
  {
    Bot(v, PolicyOf(v), ModerationEnabledGroups, lines, audioFolder)
  }

  /** What the handlers read from the outside world for one message: the group metadata, the meme
      the service returns, the audio folder listing and a random draw in [0, 1). */
  datatype Env = Env(
    meta: Metadata,
    meme: Option<Meme>,
    listing: seq<string>,
    random: real)

  predicate ValidEnv(env: Env) {
    0.0 <= env.random < 1.0
  }

  /** What a message makes the bot do: the messages it sends, in order, and the reminder it
      schedules, if any. */
  datatype Outcome = Outcome(sends: seq<Outbound>, reminder: Option<Reminder>)

  const AbuseUsage: string := "❌ Usage: @bot /abuse @person\nYou need to tag someone!"

  /** The mentions /abuse may target: all but the bot, in order. */
  function TargetUsers(jids: seq<string>): (r: seq<string>)
    ensures forall j :: j in r <==> j in jids && IsTagged(j)
    ensures r != [] ==> exists i :: (0 <= i < |jids| && jids[i] == r[0]
      && forall k :: 0 <= k < i ==> !IsTagged(jids[k]))
    ensures r == [] <==> forall k :: 0 <= k < |jids| ==> !IsTagged(jids[k])
  {
    if jids == [] then []
    else
      var rest := TargetUsers(jids[1..]);
      assert forall k :: 1 <= k < |jids| ==> jids[k] == jids[1..][k - 1];
      if IsTagged(jids[0]) then [jids[0]] + rest else rest
  }

  /** What tagAll sends: one message mentioning everyone but the bot, or nothing without metadata. */
  function TagAllSends(group: string, meta: Metadata, message: string): (r: seq<Outbound>)
    ensures meta.None? <==> r == []
  {
    if meta.None? then []
    else [Text(group, TagAllText(message, TagTargets(meta.value)), TagTargets(meta.value))]
  }

  /** The /abuse reply: the usage text without a target, otherwise the replies to the first one. */
  function AbuseSends(b: Bot, env: Env, m: Inbound): (r: seq<Outbound>)
    requires ValidEnv(env)
    ensures forall i :: 0 <= i < |r| ==> r[i].group == m.key.remoteJid
    ensures forall i :: 0 <= i < |r| ==> !r[i].Delete?
  {
    var targets := TargetUsers(m.mentionedJids);
    if targets == [] then [Text(m.key.remoteJid, AbuseUsage, [])]
    else AbuseReplies(m.key.remoteJid, targets[0], b.lines, AudioFiles(b.audioFolder, env.listing), env.random)
  }

  /** The help reply: in the src/ bot the help handler with isModerationEnabled taken from the module
      that defines it; in server.js its own help text. */
  function HelpReplies(b: Bot, meta: Metadata, m: Inbound): (r: seq<Outbound>)
    ensures r == [Text(m.key.remoteJid, HelpFor(b.variant, b.policy, b.moderationGroups, m.key.remoteJid, SenderId(m.key), meta), [])]
  {
    var text := HelpFor(b.variant, b.policy, b.moderationGroups, m.key.remoteJid, SenderId(m.key), meta);
    if b.variant == Modular then
      ModerationExported();
      ModularHelp(ModerationExports, m.key.remoteJid, text)
    else
      [Text(m.key.remoteJid, text, [])]
  }

  /** The handler a command reaches once it passed the gate, chosen by the lower-cased command. */
  function Dispatch(b: Bot, env: Env, m: Inbound, inv: Invocation): (r: Outcome)
    requires ValidEnv(env)
    ensures forall i :: 0 <= i < |r.sends| ==> r.sends[i].group == m.key.remoteJid
    ensures forall i :: 0 <= i < |r.sends| ==> !r.sends[i].Delete?
    ensures r.reminder.Some? <==> (Lookup(LowerAscii(inv.command)) == Some(ListReminder) && ParseReminder(inv.args).Some?)
    ensures r.reminder.Some? ==> (r.reminder == ParseReminder(inv.args)
      && r.sends == [Text(m.key.remoteJid, ReminderAck(r.reminder.value.minutes), [])])
    ensures Lookup(LowerAscii(inv.command)).None? ==> r == Outcome([], None)
    ensures Lookup(LowerAscii(inv.command)) == Some(ListHelp) ==> r == Outcome(HelpReplies(b, env.meta, m), None)
  {
    var group := m.key.remoteJid;
    match Lookup(LowerAscii(inv.command))
    case None => Outcome([], None)
    case Some(ListTagAll) => Outcome(TagAllSends(group, env.meta, Join(inv.args, " ")), None)
    case Some(ListReminder) =>
      (match ParseReminder(inv.args)
       case None => Outcome([Text(group, ReminderUsage, [])], None)
       case Some(r) => Outcome([Text(group, ReminderAck(r.minutes), [])], Some(r)))
    case Some(ListMeme) => Outcome([MemeReply(group, env.meme)], None)
    case Some(ListAbuse) => Outcome(AbuseSends(b, env, m), None)
    case Some(ListHelp) => Outcome(HelpReplies(b, env.meta, m), None)
    case Some(ListGroupId) => Outcome([Text(group, GroupIdText(b.variant, group), [])], None)
  }

  /** /tagall tags everyone, with the arguments joined by spaces as the message. */
  lemma DispatchTagAll(b: Bot, env: Env, m: Inbound, inv: Invocation)
    requires ValidEnv(env)
    requires LowerAscii(inv.command) == "/tagall"
    ensures Dispatch(b, env, m, inv) == Outcome(TagAllSends(m.key.remoteJid, env.meta, Join(inv.args, " ")), None)
  {
    LookupName(ListTagAll);
  }

  /** A /reminder whose count does not parse gets the usage line and schedules nothing. */
  lemma DispatchReminderUsage(b: Bot, env: Env, m: Inbound, inv: Invocation)
    requires ValidEnv(env)
    requires LowerAscii(inv.command) == "/reminder" && ParseReminder(inv.args).None?
    ensures Dispatch(b, env, m, inv) == Outcome([Text(m.key.remoteJid, ReminderUsage, [])], None)
  {
    LookupName(ListReminder);
  }

  /** /meme sends the meme reply. */
  lemma DispatchMeme(b: Bot, env: Env, m: Inbound, inv: Invocation)
    requires ValidEnv(env)
    requires LowerAscii(inv.command) == "/meme"
    ensures Dispatch(b, env, m, inv) == Outcome([MemeReply(m.key.remoteJid, env.meme)], None)
  {
    LookupName(ListMeme);
  }

  /** /help sends the help reply. */
  lemma DispatchHelp(b: Bot, env: Env, m: Inbound, inv: Invocation)
    requires ValidEnv(env)
    requires LowerAscii(inv.command) == "/help"
    ensures Dispatch(b, env, m, inv) == Outcome(HelpReplies(b, env.meta, m), None)
  {
    LookupName(ListHelp);
  }

  /** /groupid sends the group id text. */
  lemma DispatchGroupId(b: Bot, env: Env, m: Inbound, inv: Invocation)
    requires ValidEnv(env)
    requires LowerAscii(inv.command) == "/groupid"
    ensures Dispatch(b, env, m, inv) == Outcome([Text(m.key.remoteJid, GroupIdText(b.variant, m.key.remoteJid), [])], None)
  {
    LookupName(ListGroupId);
  }

  /** handleCommand as a whole: what one incoming message makes the bot do. */
  function Route(b: Bot, env: Env, m: Inbound): (r: Outcome)
    requires ValidEnv(env)
    ensures forall i :: 0 <= i < |r.sends| ==> r.sends[i].group == m.key.remoteJid
    ensures forall i :: 0 <= i < |r.sends| ==> !r.sends[i].Delete?
    ensures Invoked(b.variant, m).None? ==> r == Outcome([], None)
    ensures Invoked(b.variant, m).Some? && Refusal(b.policy, env.meta, m, Invoked(b.variant, m).value).Some? ==>
      r == Outcome([Refusal(b.policy, env.meta, m, Invoked(b.variant, m).value).value], None)
    ensures r.reminder.Some? ==> r.reminder.value.minutes > 0
  {
    match Invoked(b.variant, m)
    case None => Outcome([], None)
    case Some(inv) =>
      match Refusal(b.policy, env.meta, m, inv)
      case Some(refusal) => Outcome([refusal], None)
      case None => Dispatch(b, env, m, inv)
  }

  /** A message without text, without '/', or holding an '@' that does not address the bot makes
      the bot do nothing at all. */
  lemma SilentUnlessAddressed(b: Bot, env: Env, m: Inbound)
    requires ValidEnv(env)
    requires MessageText(m) == "" || !Contains(MessageText(m), "/")
      || (Contains(MessageText(m), "@") && !BotMentioned(b.variant, MessageText(m), m.mentionedJids))
    ensures Route(b, env, m) == Outcome([], None)
  {
    assert Invoked(b.variant, m).None?;
  }

  /** A reminder is scheduled only for a permitted /reminder command (in any letter case) whose
      first argument is a positive number, and it carries what the arguments say. */
  lemma ReminderOnlyWhenPermitted(b: Bot, env: Env, m: Inbound)
    requires ValidEnv(env)
    ensures Route(b, env, m).reminder.Some? ==>
      (Invoked(b.variant, m).Some?
       && var inv := Invoked(b.variant, m).value;
       LowerAscii(inv.command) == "/reminder"
       && IsCommandAllowed(b.policy, m.key.remoteJid, inv.command)
       && (IsAdminRequired(b.policy, m.key.remoteJid, inv.command) ==> IsUserAdmin(env.meta, SenderId(m.key)))
       && Route(b, env, m).reminder == ParseReminder(inv.args))
  {
    var r := Route(b, env, m);
    if r.reminder.Some? {
      var inv := Invoked(b.variant, m).value;
      assert Refusal(b.policy, env.meta, m, inv).None?;
      assert r == Dispatch(b, env, m, inv);
    }
  }

  /** A command the group does not allow gets exactly the not-available reply, naming the command
      as written. */
  lemma RefusedGetsOneReply(b: Bot, env: Env, m: Inbound)
    requires ValidEnv(env)
    requires Invoked(b.variant, m).Some?
    requires !IsCommandAllowed(b.policy, m.key.remoteJid, Invoked(b.variant, m).value.command)
    ensures Route(b, env, m).sends == [Text(m.key.remoteJid, NotAvailable(Invoked(b.variant, m).value.command), [])]
    ensures Route(b, env, m).reminder.None?
  {
  }

  /** The first target of /abuse is the first mention that is not the bot. */
  lemma FirstTarget(jids: seq<string>, i: nat)
    requires i < |jids| && IsTagged(jids[i])
    requires forall k :: 0 <= k < i ==> !IsTagged(jids[k])
    ensures TargetUsers(jids) != [] && TargetUsers(jids)[0] == jids[i]
  {
    var targets := TargetUsers(jids);
    assert jids[i] in targets;
    var j :| 0 <= j < |jids| && jids[j] == targets[0] && forall k :: 0 <= k < j ==> !IsTagged(jids[k]);
    assert targets[0] in targets;
    assert j == i;
  }

  /** A command that passes the gate is dispatched. */
  lemma RouteDispatches(b: Bot, env: Env, m: Inbound)
    requires ValidEnv(env)
    requires Invoked(b.variant, m).Some? && Refusal(b.policy, env.meta, m, Invoked(b.variant, m).value).None?
    ensures Route(b, env, m) == Dispatch(b, env, m, Invoked(b.variant, m).value)
  {
  }

  /** /abuse, in any letter case, is answered by its handler. */
  lemma DispatchAbuse(b: Bot, env: Env, m: Inbound, inv: Invocation)
    requires ValidEnv(env)
    requires LowerAscii(inv.command) == "/abuse"
    ensures Dispatch(b, env, m, inv) == Outcome(AbuseSends(b, env, m), None)
  {
    LookupName(ListAbuse);
  }

  /** /abuse goes to the first mention that is not the bot. */
  lemma AbuseTargetsFirstTagged(b: Bot, env: Env, m: Inbound, i: nat)
    requires ValidEnv(env)
    requires Invoked(b.variant, m).Some? && Refusal(b.policy, env.meta, m, Invoked(b.variant, m).value).None?
    requires LowerAscii(Invoked(b.variant, m).value.command) == "/abuse"
    requires i < |m.mentionedJids| && IsTagged(m.mentionedJids[i])
    requires forall k :: 0 <= k < i ==> !IsTagged(m.mentionedJids[k])
    ensures forall k :: 0 <= k < |Route(b, env, m).sends| ==>
      (Route(b, env, m).sends[k].Text? || Route(b, env, m).sends[k].Audio?) && Route(b, env, m).sends[k].mentions == [m.mentionedJids[i]]
  {
    var inv := Invoked(b.variant, m).value;
    FirstTarget(m.mentionedJids, i);
    RouteDispatches(b, env, m);
    DispatchAbuse(b, env, m, inv);
  }

  // ---------------------------------------------------------------- the imperative router

  /** The timer a reminder arms: id and start `now`, due its minutes later. */
  function ReminderTimer(group: string, now: int, r: Reminder): Timer {
    Timer(now, group, r.message, now + DelayMs(r.minutes))
  }

  /** The armed timers after an outcome: one more for a reminder, the same otherwise. */
  function ArmedAfter(armed: seq<Timer>, group: string, now: int, reminder: Option<Reminder>): seq<Timer> {
    if reminder.Some? then armed + [ReminderTimer(group, now, reminder.value)] else armed
  }

  /** The timer table after an outcome: the reminder's timer under id `now`, unchanged otherwise. */
  function PendingAfter(pending: map<int, Timer>, group: string, now: int, reminder: Option<Reminder>): map<int, Timer> {
    if reminder.Some? then pending[now := ReminderTimer(group, now, reminder.value)] else pending
  }

  /** handleReminder (the /reminder case of server.js): usage text, or schedule and acknowledge. */
  method HandleReminder(out: Outbox, sched: Scheduler, group: string, args: seq<string>, now: int)
    requires sched.Valid()
    modifies out, sched
    ensures sched.Valid()
    ensures ParseReminder(args).None? ==> out.sent == old(out.sent) + [Text(group, ReminderUsage, [])]
    ensures ParseReminder(args).Some? ==>
      out.sent == old(out.sent) + [Text(group, ReminderAck(ParseReminder(args).value.minutes), [])]
    ensures sched.armed == ArmedAfter(old(sched.armed), group, now, ParseReminder(args))
    ensures sched.pending == PendingAfter(old(sched.pending), group, now, ParseReminder(args))
  {
    var minutes := if |args| > 0 then ParseInt(args[0]) else None;
    var reminderMsg := Join(if |args| > 0 then args[1..] else [], " ");
    if minutes.None? || minutes.value <= 0 {
      out.Send(Text(group, ReminderUsage, []));
      return;
    }
    var _ := sched.Schedule(now, group, reminderMsg, minutes.value);
    out.Send(Text(group, ReminderAck(minutes.value), []));
  }

  /** handleAbuse (sayToUser in server.js). */
  method HandleAbuse(out: Outbox, group: string, target: string, lines: seq<string>, folder: string, listing: seq<string>, random: real)
    requires 0.0 <= random < 1.0
    modifies out
    ensures out.sent == old(out.sent) + AbuseReplies(group, target, lines, AudioFiles(folder, listing), random)
  {
    var audioFiles := AudioFiles(folder, listing);
    ghost var replies := AbuseReplies(group, target, lines, audioFiles, random);
    var number := UserPart(target);
    var totalOptions := |lines| + |audioFiles|;
    if totalOptions == 0 {
      assert replies == [Text(group, "@" + number + " Hello! 👋", [target])];
      out.Send(Text(group, "@" + number + " Hello! 👋", [target]));
      return;
    }
    var randomIndex := PickIndex(random, totalOptions);
    if randomIndex < |lines| {
      assert replies == [Text(group, "@" + number + " " + lines[randomIndex], [target])];
      out.Send(Text(group, "@" + number + " " + lines[randomIndex], [target]));
    } else {
      var audioIndex := randomIndex - |lines|;
      assert replies == [Audio(group, audioFiles[audioIndex], [target]), Text(group, "@" + number + " 🎵", [target])];
      out.Send(Audio(group, audioFiles[audioIndex], [target]));
      out.Send(Text(group, "@" + number + " 🎵", [target]));
    }
  }

  /** The switch of handleCommand. */
  method DispatchCommand(b: Bot, out: Outbox, sched: Scheduler, env: Env, m: Inbound, inv: Invocation, now: int)
    requires sched.Valid() && ValidEnv(env)
    modifies out, sched
    ensures sched.Valid()
    ensures out.sent == old(out.sent) + Dispatch(b, env, m, inv).sends
    ensures sched.armed == ArmedAfter(old(sched.armed), m.key.remoteJid, now, Dispatch(b, env, m, inv).reminder)
    ensures sched.pending == PendingAfter(old(sched.pending), m.key.remoteJid, now, Dispatch(b, env, m, inv).reminder)
  {
    var group := m.key.remoteJid;
    match Lookup(LowerAscii(inv.command))
    case None =>
    case Some(ListTagAll) =>
      TagAll(out, group, env.meta, Join(inv.args, " "));
    case Some(ListReminder) =>
      HandleReminder(out, sched, group, inv.args, now);
    case Some(ListMeme) =>
      out.Send(MemeReply(group, env.meme));
    case Some(ListAbuse) =>
      var targetUsers := TargetUsers(m.mentionedJids);
      if |targetUsers| == 0 {
        out.Send(Text(group, AbuseUsage, []));
        return;
      }
      HandleAbuse(out, group, targetUsers[0], b.lines, b.audioFolder, env.listing, env.random);
    case Some(ListHelp) =>
      var replies := HelpReplies(b, env.meta, m);
      out.Send(replies[0]);
    case Some(ListGroupId) =>
      out.Send(Text(group, GroupIdText(b.variant, group), []));
  }

  /** handleCommand: read the text, decide whether it is a command for the bot, check it against
      the group's permissions, then run its handler. */
  method HandleCommand(b: Bot, out: Outbox, sched: Scheduler, env: Env, m: Inbound, now: int)
    requires sched.Valid() && ValidEnv(env)
    modifies out, sched
    ensures sched.Valid()
    ensures out.sent == old(out.sent) + Route(b, env, m).sends
    ensures sched.armed == ArmedAfter(old(sched.armed), m.key.remoteJid, now, Route(b, env, m).reminder)
    ensures sched.pending == PendingAfter(old(sched.pending), m.key.remoteJid, now, Route(b, env, m).reminder)
  {
    var group := m.key.remoteJid;
    var text := MessageText(m);
    if text == "" {
      assert Invoked(b.variant, m).None?;
      return;
    }
    var botMentioned := BotMentioned(b.variant, text, m.mentionedJids);
    if !Contains(text, "/") {
      assert Invoked(b.variant, m).None?;
      return;
    }
    if Contains(text, "@") && !botMentioned {
      assert Invoked(b.variant, m).None?;
      return;
    }
    var parsed := ParseCommand(text);
    if parsed.None? {
      assert Invoked(b.variant, m).None?;
      return;
    }
    var inv := parsed.value;
    assert Invoked(b.variant, m) == Some(inv);
    if !IsCommandAllowed(b.policy, group, inv.command) {
      out.Send(Text(group, NotAvailable(inv.command), []));
      assert Route(b, env, m) == Outcome([Text(group, NotAvailable(inv.command), [])], None);
      return;
    }
    if IsAdminRequired(b.policy, group, inv.command) {
      var isAdmin := IsUserAdmin(env.meta, SenderId(m.key));
      if !isAdmin {
        out.Send(Text(group, AccessDenied(inv.command), []));
        assert Route(b, env, m) == Outcome([Text(group, AccessDenied(inv.command), [])], None);
        return;
      }
    }
    assert Refusal(b.policy, env.meta, m, inv).None?;
    assert Route(b, env, m) == Dispatch(b, env, m, inv);
    DispatchCommand(b, out, sched, env, m, inv, now);
  }
}
