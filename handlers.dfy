/** What each command does once the router has accepted it: the meme, the targeted message, the
    reminder, the help text and the group id. Network results, the audio folder listing and the
    random draw are inputs. */
module Handlers {
  import opened Text
  import opened Transport
  import opened Utils
  import opened CommandPermissions
  import opened Moderation

  // ---------------------------------------------------------------- /meme

  /** A meme fetched from the meme service. */
  datatype Meme = Meme(url: string, title: string)

  const MemeFallback: string := "❌ Could not fetch meme. Try again!"

  /** handleMeme (sendMeme in server.js): the image with its title, or the fallback text when the
      fetch failed; never both. */
  function MemeReply(group: string, meme: Option<Meme>): (m: Outbound)
    ensures m.Image? <==> meme.Some?
    ensures meme.Some? ==> m == Image(group, meme.value.url, "😂 " + meme.value.title)
    ensures meme.None? ==> m == Text(group, MemeFallback, [])
  {
    match meme
    case Some(x) => Image(group, x.url, "😂 " + x.title)
    case None => Text(group, MemeFallback, [])
  }

  // ---------------------------------------------------------------- /abuse

  /** The voice notes of the audio folder: the entries whose lower-cased name ends in ".m4a", joined
      to the folder path, in listing order. A listing that fails is passed as the empty listing. */
  function AudioFiles(folder: string, listing: seq<string>): (r: seq<string>)
    ensures |r| <= |listing|
    ensures forall i :: 0 <= i < |r| ==>
      exists k :: 0 <= k < |listing| && EndsWith(LowerAscii(listing[k]), ".m4a") && r[i] == folder + "/" + listing[k]
    ensures forall k :: 0 <= k < |listing| && EndsWith(LowerAscii(listing[k]), ".m4a") ==>
      folder + "/" + listing[k] in r
  {
    if listing == [] then []
    else
      var init := AudioFiles(folder, listing[..|listing| - 1]);
      var f := listing[|listing| - 1];
      assert forall k :: 0 <= k < |listing| - 1 ==> listing[..|listing| - 1][k] == listing[k];
      if EndsWith(LowerAscii(f), ".m4a") then init + [folder + "/" + f] else init
  }

  /** `Math.floor(Math.random() * totalOptions)` for a draw `random` in [0, 1). */
  function PickIndex(random: real, total: nat): (k: nat)
    requires 0.0 <= random < 1.0 && total > 0
    ensures k < total
  {
    var x := random * total as real;
    assert (1.0 - random) * (total as real) > 0.0;
    x.Floor
  }

  /** handleAbuse (sayToUser in server.js). With no line and no voice note: a greeting. Otherwise a
      draw over lines and voice notes together: a line is sent as "@<number> <line>", a voice note
      is sent and then followed by "@<number> 🎵". Every message mentions the target. */
  function AbuseReplies(group: string, target: string, lines: seq<string>, audio: seq<string>, random: real): (r: seq<Outbound>)
    requires 0.0 <= random < 1.0
    ensures 1 <= |r| <= 2
    ensures forall i :: 0 <= i < |r| ==> r[i].group == group && (r[i].Text? || r[i].Audio?) && r[i].mentions == [target]
    ensures |lines| + |audio| == 0 ==> r == [Text(group, "@" + UserPart(target) + " Hello! 👋", [target])]
    ensures |lines| + |audio| > 0 && |r| == 1 ==>
      exists i :: 0 <= i < |lines| && r[0] == Text(group, "@" + UserPart(target) + " " + lines[i], [target])
    ensures |r| == 2 ==>
      r[0].Audio? && r[0].url in audio && r[1] == Text(group, "@" + UserPart(target) + " 🎵", [target])
    ensures |lines| == 0 && |audio| > 0 ==> |r| == 2
    ensures |audio| == 0 ==> |r| == 1
  {
    var number := UserPart(target);
    var totalOptions := |lines| + |audio|;
    if totalOptions == 0 then
      [Text(group, "@" + number + " Hello! 👋", [target])]
    else
      var randomIndex := PickIndex(random, totalOptions);
      if randomIndex < |lines| then
        [Text(group, "@" + number + " " + lines[randomIndex], [target])]
      else
        var audioIndex := randomIndex - |lines|;
        [Audio(group, audio[audioIndex], [target]), Text(group, "@" + number + " 🎵", [target])]
  }

  // ---------------------------------------------------------------- /reminder

  const ReminderUsage: string := "❌ Usage: /reminder <minutes> <message>\nExample: /reminder 30 Meeting reminder!"

  /** A reminder the command asks for. */
  datatype Reminder = Reminder(minutes: nat, message: string)

  /** The reminder arguments: `parseInt(args[0])` must be a positive number (a missing first
      argument parses as NaN); the message is the remaining arguments joined by single spaces. */
  function ParseReminder(args: seq<string>): (r: Option<Reminder>)
    ensures r.None? <==> |args| == 0 || ParseInt(args[0]).None? || ParseInt(args[0]).value <= 0
    ensures r.Some? ==> r.value.minutes > 0 && Some(r.value.minutes as int) == ParseInt(args[0])
                        && r.value.message == Join(args[1..], " ")
  {
    if |args| == 0 then None
    else
      match ParseInt(args[0])
      case None => None
      case Some(m) => if m <= 0 then None else Some(Reminder(m, Join(args[1..], " ")))
  }

  /** The acknowledgement of a scheduled reminder. */
  function ReminderAck(minutes: nat): string {
    "✅ Reminder scheduled for " + NatToString(minutes) + " minute(s) from now!"
  }

  /** A positive count of minutes written in decimal, followed by any words, is accepted with those
      words as the message. */
  lemma ReminderOfMinutes(n: nat, words: seq<string>)
    requires n > 0
    ensures ParseReminder([NatToString(n)] + words) == Some(Reminder(n, Join(words, " ")))
  {
    ParseIntOfNat(n);
    assert ([NatToString(n)] + words)[1..] == words;
  }

  /** The acknowledgement names the number of minutes, which reads back as that number. */
  lemma ReminderAckNamesMinutes(n: nat)
    ensures ParseInt(NatToString(n)) == Some(n as int)
    ensures Contains(ReminderAck(n), NatToString(n))
  {
    ParseIntOfNat(n);
    var lead := "✅ Reminder scheduled for ";
    var ack := ReminderAck(n);
    assert ack[|lead|..|lead| + |NatToString(n)|] == NatToString(n);
    ContainsAt(ack, NatToString(n), |lead|);
  }

  /** `parseInt` reads a leading number and ignores the rest, so "5min" asks for five minutes. */
  lemma ReminderIgnoresUnit()
    ensures ParseReminder(["5min", "tea"]) == Some(Reminder(5, "tea"))
  {
    assert DigitPrefix("5min", false) == "5";
  }

  /** A first argument of zero, a negative count or a word is refused, and so is a missing one. */
  lemma ReminderRefusesZero()
    ensures ParseReminder([]) == None
    ensures ParseReminder(["0", "tea"]) == None
  {
    assert DigitPrefix("0", false) == "0";
  }

  lemma ReminderRefusesNegative()
    ensures ParseReminder(["-5", "tea"]) == None
  {
    assert TrimStart("-5") == "-5";
    assert DigitPrefix("5", false) == "5";
  }

  lemma ReminderRefusesWord()
    ensures ParseReminder(["soon", "tea"]) == None
  {
    assert DigitPrefix("soon", false) == "";
  }

  // ---------------------------------------------------------------- /help

  /** The commands the help text has a line for. */
  datatype Listed = ListTagAll | ListReminder | ListMeme | ListAbuse | ListGroupId | ListHelp

  function Name(c: Listed): string {
    match c
    case ListTagAll => "/tagall"
    case ListReminder => "/reminder"
    case ListMeme => "/meme"
    case ListAbuse => "/abuse"
    case ListGroupId => "/groupid"
    case ListHelp => "/help"
  }

  /** The listed command a lower-cased name stands for, if any. */
  function Lookup(name: string): (c: Option<Listed>)
    ensures c.Some? ==> Name(c.value) == name
    ensures c.None? ==> forall d: Listed :: Name(d) != name
  {
    if name == "/tagall" then Some(ListTagAll)
    else if name == "/reminder" then Some(ListReminder)
    else if name == "/meme" then Some(ListMeme)
    else if name == "/abuse" then Some(ListAbuse)
    else if name == "/help" then Some(ListHelp)
    else if name == "/groupid" then Some(ListGroupId)
    else None
  }

  /** The order of the public section, which has a line for every listed command. */
  const PublicOrder: seq<Listed> := [ListTagAll, ListReminder, ListMeme, ListAbuse, ListGroupId, ListHelp]

  /** The order of the admin section, which has a /groupid line only in the src/ bot. */
  function AdminOrder(v: Variant): seq<Listed> {
    match v
    case Modular => [ListTagAll, ListReminder, ListGroupId]
    case Monolithic => [ListTagAll, ListReminder]
  }

  // The wording of the help text. Each piece is a named constant.

  const ModularTagAllLine: string := "📢 /tagall [msg] - Tag everyone\n"
  const ModularReminderLine: string := "⏰ /reminder <min> <msg> - Schedule reminder\n"
  const ModularMemeLine: string := "😂 /meme - Random meme\n"
  const ModularAbuseLine: string := "💬 /abuse @person - Roast someone\n"
  const ModularGroupIdLine: string := "🆔 /groupid - Get group ID\n"
  const ModularHelpLine: string := "❓ /help - Show this\n"

  const MonolithicTagAllLine: string := "📢 /tagall [message] - Tag everyone in the group\n"
  const MonolithicReminderLine: string := "⏰ /reminder <minutes> <message> - Schedule a tagged message\n"
  const MonolithicMemeLine: string := "😂 /meme - Get a random meme\n"
  const MonolithicAbuseLine: string := "💬 /abuse @person - Send abusive message to someone\n"
  const MonolithicGroupIdLine: string := "🆔 /groupid - Get this group's ID\n"
  const MonolithicHelpLine: string := "❓ /help - Show this help message\n"

  const ModularHeader: string := "🤖 *Bot Commands*\n\n💡 *Usage:* Mention bot with command or just use command\n\n"
  const MonolithicHeader: string := "🤖 *Bot Commands*\n\n💡 *Usage:* Mention the bot with a command\nExample: @bot /tagall or just /tagall\n\n"

  const ModularAdminTitle: string := "🔒 *Admin Only:*\n"
  const MonolithicAdminTitle: string := "🔒 *Admin Only Commands:*\n"
  const ModularPublicTitle: string := "👥 *Everyone:*\n"
  const MonolithicPublicTitle: string := "👥 *Everyone Can Use:*\n"

  const ModularChatHint: string := "💬 *AI Chat:* Tag bot without command for conversation\n\n"
  const ModularStatusLead: string := "👤 *Your Status:* "
  const ModularModerationLead: string := "🛡️ *Moderation:* "
  const MonolithicTip: string := "_Tip: Commands shown are available in this group_\n\n"
  const MonolithicAdminStatus: string := "👑 *Your Status:* Admin\n"
  const MonolithicMemberStatus: string := "👤 *Your Status:* Member\n"
  const MonolithicModerationLead: string := "🛡️ *Auto-Moderation:* "
  const MonolithicModerationTail: string := " for this group\n(Removes unauthorized links when bot is admin)"

  /** The help line of a command, in each bot's wording. */
  function HelpLine(v: Variant, c: Listed): string {
    match v
    case Modular => (
      match c
      case ListTagAll => ModularTagAllLine
      case ListReminder => ModularReminderLine
      case ListMeme => ModularMemeLine
      case ListAbuse => ModularAbuseLine
      case ListGroupId => ModularGroupIdLine
      case ListHelp => ModularHelpLine)
    case Monolithic => (
      match c
      case ListTagAll => MonolithicTagAllLine
      case ListReminder => MonolithicReminderLine
      case ListMeme => MonolithicMemeLine
      case ListAbuse => MonolithicAbuseLine
      case ListGroupId => MonolithicGroupIdLine
      case ListHelp => MonolithicHelpLine)
  }

  function HelpHeader(v: Variant): string {
    match v
    case Modular => ModularHeader
    case Monolithic => MonolithicHeader
  }

  function AdminTitle(v: Variant): (t: string)
    ensures t != ""
  {
    match v
    case Modular => ModularAdminTitle
    case Monolithic => MonolithicAdminTitle
  }

  function PublicTitle(v: Variant): (t: string)
    ensures t != ""
  {
    match v
    case Modular => ModularPublicTitle
    case Monolithic => MonolithicPublicTitle
  }

  function ModerationStatus(enabled: bool): string {
    if enabled then "✅ Enabled" else "❌ Disabled"
  }

  /** The closing lines: the chat hint or tip, the sender's status and the moderation status. */
  function HelpFooter(v: Variant, isAdmin: bool, moderationOn: bool): string {
    match v
    case Modular =>
      ModularChatHint
      + ModularStatusLead + (if isAdmin then "Admin 👑" else "Member") + "\n"
      + ModularModerationLead + ModerationStatus(moderationOn)
    case Monolithic =>
      MonolithicTip
      + (if isAdmin then MonolithicAdminStatus else MonolithicMemberStatus)
      + MonolithicModerationLead + ModerationStatus(moderationOn)
      + MonolithicModerationTail
  }

  /** The line of `c` when the list holds it, nothing otherwise. */
  function LineIf(v: Variant, c: Listed, commands: seq<string>): string {
    if Name(c) in commands then HelpLine(v, c) else ""
  }

  /** `start` followed by the lines of the commands of `order` that occur in `commands`, in the
      order of `order`. */
  function HelpLines(start: string, v: Variant, order: seq<Listed>, commands: seq<string>): (r: string)
    ensures |r| >= |start| && r[..|start|] == start
  {
    if order == [] then start
    else HelpLines(start, v, order[..|order| - 1], commands) + LineIf(v, order[|order| - 1], commands)
  }

  /** A titled section, present only when its list is not empty. */
  function Section(title: string, v: Variant, order: seq<Listed>, commands: seq<string>): (s: string)
    requires title != ""
    ensures s == "" <==> |commands| == 0
    ensures |commands| > 0 ==> StartsWith(s, title)
  {
    if |commands| > 0 then HelpLines(title, v, order, commands) + "\n" else ""
  }

  /** The help text for the admin list and the public list of a group. */
  function HelpText(v: Variant, admin: seq<string>, public: seq<string>, isAdmin: bool, moderationOn: bool): (r: string)
    ensures StartsWith(r, HelpHeader(v))
    ensures EndsWith(r, HelpFooter(v, isAdmin, moderationOn))
    ensures admin != [] ==> Contains(r, AdminTitle(v))
    ensures public != [] ==> Contains(r, PublicTitle(v))
  {
    var header := HelpHeader(v);
    var adminPart := Section(AdminTitle(v), v, AdminOrder(v), admin);
    var publicPart := Section(PublicTitle(v), v, PublicOrder, public);
    var footer := HelpFooter(v, isAdmin, moderationOn);
    FourParts(header, adminPart, publicPart, footer, AdminTitle(v), PublicTitle(v));
    header + adminPart + publicPart + footer
  }

  /** A command of the order that is in the list gets its line. */
  lemma {:induction false} HelpLinesName(start: string, v: Variant, order: seq<Listed>, commands: seq<string>, c: Listed)
    requires c in order && Name(c) in commands
    ensures Contains(HelpLines(start, v, order, commands), HelpLine(v, c))
  {
    var k := |order| - 1;
    var init := HelpLines(start, v, order[..k], commands);
    var line := HelpLine(v, c);
    if order[k] == c {
      ContainsAt(line, line, 0);
      ContainsInRight(init, line, line);
    } else {
      assert c in order[..k] by {
        var j :| 0 <= j < |order| && order[j] == c;
        assert order[..k][j] == c;
      }
      HelpLinesName(start, v, order[..k], commands, c);
      ContainsInLeft(init, LineIf(v, order[k], commands), line);
    }
  }

  lemma SectionHolds(title: string, v: Variant, order: seq<Listed>, commands: seq<string>, needle: string)
    requires title != "" && |commands| > 0
    requires Contains(HelpLines(title, v, order, commands), needle)
    ensures Contains(Section(title, v, order, commands), needle)
  {
    ContainsInLeft(HelpLines(title, v, order, commands), "\n", needle);
  }

  lemma ContainsInMiddle(a: string, b: string, c: string, d: string, needle: string)
    requires Contains(b, needle) || Contains(c, needle)
    ensures Contains(a + b + c + d, needle)
  {
    if Contains(b, needle) {
      ContainsInRight(a, b, needle);
      ContainsInLeft(a + b, c, needle);
    } else {
      ContainsInRight(a + b, c, needle);
    }
    ContainsInLeft(a + b + c, d, needle);
  }

  /** A section appears in the help text exactly when its list is not empty. */
  lemma SectionsPresent(v: Variant, admin: seq<string>, public: seq<string>)
    ensures Section(AdminTitle(v), v, AdminOrder(v), admin) == "" <==> admin == []
    ensures Section(PublicTitle(v), v, PublicOrder, public) == "" <==> public == []
  {
  }

  /** A command of the admin list that the admin section can show has its line in the help text. */
  lemma AdminLineShown(v: Variant, admin: seq<string>, public: seq<string>, isAdmin: bool, moderationOn: bool, c: Listed)
    requires Name(c) in admin && c in AdminOrder(v)
    ensures Contains(HelpText(v, admin, public, isAdmin, moderationOn), HelpLine(v, c))
  {
    var line := HelpLine(v, c);
    HelpLinesName(AdminTitle(v), v, AdminOrder(v), admin, c);
    SectionHolds(AdminTitle(v), v, AdminOrder(v), admin, line);
    ContainsInMiddle(HelpHeader(v), Section(AdminTitle(v), v, AdminOrder(v), admin),
                     Section(PublicTitle(v), v, PublicOrder, public), HelpFooter(v, isAdmin, moderationOn), line);
  }

  /** Every command of the public list has its line in the help text. */
  lemma PublicLineShown(v: Variant, admin: seq<string>, public: seq<string>, isAdmin: bool, moderationOn: bool, c: Listed)
    requires Name(c) in public
    ensures Contains(HelpText(v, admin, public, isAdmin, moderationOn), HelpLine(v, c))
  {
    var line := HelpLine(v, c);
    ListedInPublicOrder(c);
    HelpLinesName(PublicTitle(v), v, PublicOrder, public, c);
    SectionHolds(PublicTitle(v), v, PublicOrder, public, line);
    ContainsInMiddle(HelpHeader(v), Section(AdminTitle(v), v, AdminOrder(v), admin),
                     Section(PublicTitle(v), v, PublicOrder, public), HelpFooter(v, isAdmin, moderationOn), line);
  }

  /** Under a policy whose admin-only commands all have a line in the admin section, the help text
      has the line of every command the group allows. */
  lemma AllowedLinesShown(v: Variant, p: Policy, group: string, isAdmin: bool, moderationOn: bool, c: Listed)
    requires forall d: Listed :: Name(d) in AdminOnlyCommands(p, group) ==> d in AdminOrder(v)
    requires IsCommandAllowed(p, group, Name(c))
    ensures Contains(HelpText(v, AdminOnlyCommands(p, group), PublicCommands(p, group), isAdmin, moderationOn), HelpLine(v, c))
  {
    var admin := AdminOnlyCommands(p, group);
    var public := PublicCommands(p, group);
    if Name(c) in admin {
      AdminLineShown(v, admin, public, isAdmin, moderationOn, c);
    } else {
      PublicLineShown(v, admin, public, isAdmin, moderationOn, c);
    }
  }

  lemma ListedInPublicOrder(c: Listed)
    ensures c in PublicOrder
  {
    match c
    case ListTagAll => assert PublicOrder[0] == c;
    case ListReminder => assert PublicOrder[1] == c;
    case ListMeme => assert PublicOrder[2] == c;
    case ListAbuse => assert PublicOrder[3] == c;
    case ListGroupId => assert PublicOrder[4] == c;
    case ListHelp => assert PublicOrder[5] == c;
  }

  /** The names commandPermissions.js exports, and those moderation.js exports. */
  const PermissionsExports: seq<string> := ["isCommandAllowed", "isAdminRequired", "getAllowedCommands", "getAdminOnlyCommands"]
  const ModerationExports: seq<string> := ["hasUnauthorizedContent", "isModerationEnabled"]

  /** The help text a sender gets in a group: the allowed commands split into the admin-only ones
      and the rest, the sender's admin status and the group's moderation status. */
  function HelpFor(v: Variant, p: Policy, moderationGroups: seq<string>, group: string, sender: string, meta: Metadata): (r: string)
    ensures StartsWith(r, HelpHeader(v))
    ensures EndsWith(r, HelpFooter(v, IsUserAdmin(meta, sender), group in moderationGroups))
    ensures AdminOnlyCommands(p, group) != [] ==> Contains(r, AdminTitle(v))
  {
    HelpText(v, AdminOnlyCommands(p, group), PublicCommands(p, group),
             IsUserAdmin(meta, sender), IsModerationEnabled(moderationGroups, group))
  }

  /** handleHelp of the src/ bot, given the exports of the module it takes isModerationEnabled
      from and the help text it would build. When that module does not export the function, the
      first statement calls `undefined` and throws before any message is sent. */
  function ModularHelp(exports: seq<string>, group: string, helpText: string): (r: seq<Outbound>)
    ensures "isModerationEnabled" !in exports ==> r == []
    ensures "isModerationEnabled" in exports ==> r == [Text(group, helpText, [])]
  {
    if "isModerationEnabled" !in exports then [] else [Text(group, helpText, [])]
  }

  /** As written, src/commandHandlers.js takes isModerationEnabled from commandPermissions.js,
      which does not export it: /help in the src/ bot sends nothing. */
  lemma HelpAsWrittenSendsNothing(group: string, helpText: string)
    ensures ModularHelp(PermissionsExports, group, helpText) == []
  {
    assert PermissionsExports[0][2] != "isModerationEnabled"[2];
    assert PermissionsExports[1][2] != "isModerationEnabled"[2];
    assert PermissionsExports[2][0] != "isModerationEnabled"[0];
    assert PermissionsExports[3][0] != "isModerationEnabled"[0];
  }

  /** The moderation module exports isModerationEnabled. */
  lemma ModerationExported()
    ensures "isModerationEnabled" in ModerationExports
  {
    assert ModerationExports[1] == "isModerationEnabled";
  }

  /** Distinct listed commands have distinct names. */
  lemma NamesDistinct(c: Listed, d: Listed)
    ensures Name(c) == Name(d) ==> c == d
  {
    if c != d {
      assert Name(c)[1] != Name(d)[1] || Name(c)[2] != Name(d)[2];
    }
  }

  /** Each listed command is found under its own name. */
  lemma LookupName(c: Listed)
    ensures Lookup(Name(c)) == Some(c)
  {
    var found := Lookup(Name(c));
    NamesDistinct(found.value, c);
  }

  /** In the src/ bot every admin-only command of every group has a line in the admin section. */
  lemma ModularAdminCovered(group: string, c: Listed)
    requires Name(c) in AdminOnlyCommands(ModularPolicy, group)
    ensures c in AdminOrder(Modular)
  {
    var p := ModularPolicy;
    if group == SablogGroup {
      assert GroupAdminOnly(p, group) == ["/reminder", "/groupid"];
    } else if group == KrishnaGroup {
      assert GroupAdminOnly(p, group) == ["/reminder"];
    } else {
      assert GroupAdminOnly(p, group) == [];
    }
    assert Name(c) == Name(ListReminder) || Name(c) == Name(ListGroupId);
    NamesDistinct(c, ListReminder);
    NamesDistinct(c, ListGroupId);
    assert AdminOrder(Modular)[1] == ListReminder && AdminOrder(Modular)[2] == ListGroupId;
  }

  /** Taken from moderation.js, where it is defined, /help sends the help text, which has the line
      of every command the group allows, admin-only or not. */
  lemma HelpCorrectedSendsHelp(moderationGroups: seq<string>, group: string, sender: string, meta: Metadata, c: Listed)
    ensures var text := HelpFor(Modular, ModularPolicy, moderationGroups, group, sender, meta);
      ModularHelp(ModerationExports, group, text) == [Text(group, text, [])]
    ensures IsCommandAllowed(ModularPolicy, group, Name(c)) ==>
      Contains(HelpFor(Modular, ModularPolicy, moderationGroups, group, sender, meta), HelpLine(Modular, c))
  {
    assert ModerationExports[1] == "isModerationEnabled";
    if IsCommandAllowed(ModularPolicy, group, Name(c)) {
      forall d: Listed | Name(d) in AdminOnlyCommands(ModularPolicy, group)
        ensures d in AdminOrder(Modular)
      {
        ModularAdminCovered(group, d);
      }
      AllowedLinesShown(Modular, ModularPolicy, group, IsUserAdmin(meta, sender),
                        IsModerationEnabled(moderationGroups, group), c);
    }
  }

  /** In server.js /groupid is an admin-only command of the first configured group, yet the help
      text lists it in neither section: the admin section has no /groupid line. */
  lemma MonolithicHelpOmitsGroupId()
    ensures IsCommandAllowed(MonolithicPolicy, SablogGroup, "/groupid")
    ensures "/groupid" in AdminOnlyCommands(MonolithicPolicy, SablogGroup)
    ensures ListGroupId !in AdminOrder(Monolithic)
    ensures "/groupid" !in PublicCommands(MonolithicPolicy, SablogGroup)
  {
    assert MonolithicPolicy.groups[SablogGroup].allowed[5] == "/groupid";
  }

  // ---------------------------------------------------------------- /groupid

  /** handleGroupId: the group id between back quotes, with a closing line that differs between
      the two bots. */
  const ModularGroupIdTail: string := "\n\nCopy this to enable moderation."
  const MonolithicGroupIdTail: string := "\n\nCopy this to enable moderation in code."

  function GroupIdText(v: Variant, group: string): (t: string)
    ensures StartsWith(t, "🆔 *Group ID:*\n`" + group + "`")
  {
    var lead := "🆔 *Group ID:*\n`" + group + "`";
    var tail := match v
      case Modular => ModularGroupIdTail
      case Monolithic => MonolithicGroupIdTail;
    StartsWithConcat(lead, tail);
    lead + tail
  }
}
