/** The message loop of the server.js bot: which chats it serves, the auto-moderation that deletes
    flagged messages, and the command handling every served message goes through afterwards. */
module Server {
  import opened Text
  import opened Transport
  import opened Utils
  import opened CommandPermissions
  import opened Moderation
  import opened Router

  /** The bot serves group chats only, whose ids end in "@g.us". */
  predicate IsGroupChat(jid: string) {
    EndsWith(jid, "@g.us")
  }

  const WarningTail: string := " Unauthorized content detected and removed.\nPlease avoid posting unsolicited links or spam."

  /** The notice sent after a deletion, mentioning the sender by number. */
  function ModerationWarning(group: string, sender: string): (w: Outbound)
    ensures w.Text? && w.group == group && w.mentions == [sender]
    ensures StartsWith(w.text, "⚠️ @" + UserPart(sender))
  {
    var lead := "⚠️ @" + UserPart(sender);
    StartsWithConcat(lead, WarningTail);
    Text(group, lead + WarningTail, [sender])
  }

  /** The moderation rule: delete a message only when it has text, the text is flagged, moderation
      is on for the group, the bot is an admin and the sender is not. */
  predicate ShouldDelete(moderationGroups: seq<string>, meta: Metadata, m: Inbound)
    ensures moderationGroups == [] ==> !ShouldDelete(moderationGroups, meta, m)
    ensures ShouldDelete(moderationGroups, meta, m) ==> m.key.remoteJid in moderationGroups && MessageText(m) != ""
    ensures ShouldDelete(moderationGroups, meta, m) ==> meta.Some? && !IsUserAdmin(meta, SenderId(m.key))
  {
    var text := MessageText(m);
    text != ""
    && IsUnauthorized(text)
    && IsModerationEnabled(moderationGroups, m.key.remoteJid)
    && IsBotAdmin(meta)
    && !IsUserAdmin(meta, SenderId(m.key))
  }

  /** What moderation sends for one message: the deletion and the warning, or nothing. */
  function ModerationSends(moderationGroups: seq<string>, meta: Metadata, m: Inbound): (r: seq<Outbound>)
    ensures r == [] <==> !ShouldDelete(moderationGroups, meta, m)
    ensures r != [] ==> (|r| == 2 && r[0] == Delete(m.key.remoteJid, m.key)
      && r[1] == ModerationWarning(m.key.remoteJid, SenderId(m.key)))
  {
    if ShouldDelete(moderationGroups, meta, m) then
      [Delete(m.key.remoteJid, m.key), ModerationWarning(m.key.remoteJid, SenderId(m.key))]
    else []
  }

  /** Moderation only ever writes to the chat the message came from. */
  lemma ModerationInChat(moderationGroups: seq<string>, meta: Metadata, m: Inbound)
    ensures forall i :: 0 <= i < |ModerationSends(moderationGroups, meta, m)| ==>
      ModerationSends(moderationGroups, meta, m)[i].group == m.key.remoteJid
  {
  }

  /** What one message makes the bot do: nothing outside group chats; otherwise moderation, then
      the command handling, which runs whether or not the message was deleted. */
  function Reaction(b: Bot, env: Env, m: Inbound): (r: Outcome)
    requires ValidEnv(env)
    ensures !IsGroupChat(m.key.remoteJid) ==> r == Outcome([], None)
    ensures forall i :: 0 <= i < |r.sends| ==> r.sends[i].group == m.key.remoteJid
  {
    if !IsGroupChat(m.key.remoteJid) then Outcome([], None)
    else
      var routed := Route(b, env, m);
      var mod := ModerationSends(b.moderationGroups, env.meta, m);
      ModerationInChat(b.moderationGroups, env.meta, m);
      SameChat(mod, routed.sends, m.key.remoteJid);
      Outcome(mod + routed.sends, routed.reminder)
  }

  /** In a group chat, moderation's messages come first and the command's replies after them. */
  lemma GroupReaction(b: Bot, env: Env, m: Inbound)
    requires ValidEnv(env)
    requires IsGroupChat(m.key.remoteJid)
    ensures Reaction(b, env, m).sends == ModerationSends(b.moderationGroups, env.meta, m) + Route(b, env, m).sends
    ensures Reaction(b, env, m).reminder == Route(b, env, m).reminder
  {
  }

  /** Two lists of messages for one chat make one such list. */
  lemma SameChat(a: seq<Outbound>, c: seq<Outbound>, group: string)
    requires forall i :: 0 <= i < |a| ==> a[i].group == group
    requires forall i :: 0 <= i < |c| ==> c[i].group == group
    ensures forall i :: 0 <= i < |a + c| ==> (a + c)[i].group == group
  {
    forall i | 0 <= i < |a + c|
      ensures (a + c)[i].group == group
    {
      if i >= |a| {
        assert (a + c)[i] == c[i - |a|];
      }
    }
  }

  /** A message is deleted exactly when it comes from a group chat and the moderation rule holds;
      the deletion is then the first thing sent and names the message's own key. */
  lemma DeletesExactlyFlagged(b: Bot, env: Env, m: Inbound)
    requires ValidEnv(env)
    ensures (exists i :: 0 <= i < |Reaction(b, env, m).sends| && Reaction(b, env, m).sends[i].Delete?) <==>
      (IsGroupChat(m.key.remoteJid) && ShouldDelete(b.moderationGroups, env.meta, m))
    ensures IsGroupChat(m.key.remoteJid) && ShouldDelete(b.moderationGroups, env.meta, m) ==>
      Reaction(b, env, m).sends[0] == Delete(m.key.remoteJid, m.key)
  {
    var r := Reaction(b, env, m);
    if IsGroupChat(m.key.remoteJid) {
      var mod := ModerationSends(b.moderationGroups, env.meta, m);
      var routed := Route(b, env, m).sends;
      if !ShouldDelete(b.moderationGroups, env.meta, m) {
        assert r.sends == routed;
      } else {
        assert r.sends[0] == mod[0];
      }
    }
  }

  /** Neither an admin's message nor any message while the bot is not an admin is ever deleted. */
  lemma AdminsNeverDeleted(b: Bot, env: Env, m: Inbound)
    requires ValidEnv(env)
    requires IsUserAdmin(env.meta, SenderId(m.key)) || !IsBotAdmin(env.meta)
    ensures forall i :: 0 <= i < |Reaction(b, env, m).sends| ==> !Reaction(b, env, m).sends[i].Delete?
  {
    DeletesExactlyFlagged(b, env, m);
  }

  /** With no group listed for moderation, as both bots ship, nothing is ever deleted. */
  lemma ShippedNeverDeletes(b: Bot, env: Env, m: Inbound)
    requires ValidEnv(env)
    requires b.moderationGroups == ModerationEnabledGroups
    ensures forall i :: 0 <= i < |Reaction(b, env, m).sends| ==> !Reaction(b, env, m).sends[i].Delete?
  {
    DeletesExactlyFlagged(b, env, m);
  }

  /** Moderation never keeps a command from being handled: the command's replies follow it. */
  lemma CommandsStillHandled(b: Bot, env: Env, m: Inbound)
    requires ValidEnv(env)
    requires IsGroupChat(m.key.remoteJid)
    ensures |Reaction(b, env, m).sends| >= |Route(b, env, m).sends|
    ensures Reaction(b, env, m).sends[|Reaction(b, env, m).sends| - |Route(b, env, m).sends|..] == Route(b, env, m).sends
  {
  }

  // ---------------------------------------------------------------- a batch of messages

  /** Everything a batch of messages makes the bot send, in order. */
  function BatchSends(b: Bot, envs: seq<Env>, ms: seq<Inbound>): (r: seq<Outbound>)
    requires |envs| == |ms| && forall k :: 0 <= k < |envs| ==> ValidEnv(envs[k])
    decreases |ms|
  {
    if ms == [] then []
    else
      var n := |ms| - 1;
      BatchSends(b, envs[..n], ms[..n]) + Reaction(b, envs[n], ms[n]).sends
  }

  /** The armed timers after a batch, each message handled at its own time. */
  function BatchArmed(armed: seq<Timer>, b: Bot, envs: seq<Env>, ms: seq<Inbound>, nows: seq<int>): seq<Timer>
    requires |envs| == |ms| == |nows| && forall k :: 0 <= k < |envs| ==> ValidEnv(envs[k])
    decreases |ms|
  {
    if ms == [] then armed
    else
      var n := |ms| - 1;
      ArmedAfter(BatchArmed(armed, b, envs[..n], ms[..n], nows[..n]), ms[n].key.remoteJid, nows[n], Reaction(b, envs[n], ms[n]).reminder)
  }

  /** The timer table after a batch. */
  function BatchPending(pending: map<int, Timer>, b: Bot, envs: seq<Env>, ms: seq<Inbound>, nows: seq<int>): map<int, Timer>
    requires |envs| == |ms| == |nows| && forall k :: 0 <= k < |envs| ==> ValidEnv(envs[k])
    decreases |ms|
  {
    if ms == [] then pending
    else
      var n := |ms| - 1;
      PendingAfter(BatchPending(pending, b, envs[..n], ms[..n], nows[..n]), ms[n].key.remoteJid, nows[n], Reaction(b, envs[n], ms[n]).reminder)
  }

  /** With no group listed for moderation, no message of a batch is deleted. */
  lemma {:induction false} ShippedBatchNeverDeletes(b: Bot, envs: seq<Env>, ms: seq<Inbound>)
    requires |envs| == |ms| && forall k :: 0 <= k < |envs| ==> ValidEnv(envs[k])
    requires b.moderationGroups == ModerationEnabledGroups
    ensures forall i :: 0 <= i < |BatchSends(b, envs, ms)| ==> !BatchSends(b, envs, ms)[i].Delete?
    decreases |ms|
  {
    if ms != [] {
      var n := |ms| - 1;
      ShippedBatchNeverDeletes(b, envs[..n], ms[..n]);
      ShippedNeverDeletes(b, envs[n], ms[n]);
    }
  }

  /** Messages from outside group chats add nothing to what a batch sends. */
  lemma {:induction false} PrivateChatsIgnored(b: Bot, envs: seq<Env>, ms: seq<Inbound>)
    requires |envs| == |ms| && forall k :: 0 <= k < |envs| ==> ValidEnv(envs[k])
    requires forall k :: 0 <= k < |ms| ==> !IsGroupChat(ms[k].key.remoteJid)
    ensures BatchSends(b, envs, ms) == []
    decreases |ms|
  {
    if ms != [] {
      var n := |ms| - 1;
      PrivateChatsIgnored(b, envs[..n], ms[..n]);
    }
  }

  /** One more message extends what a batch sends by that message's reaction. */
  lemma BatchSendsStep(sent: seq<Outbound>, b: Bot, envs: seq<Env>, ms: seq<Inbound>, i: nat)
    requires |envs| == |ms| && forall k :: 0 <= k < |envs| ==> ValidEnv(envs[k])
    requires i < |ms|
    ensures sent + BatchSends(b, envs[..i + 1], ms[..i + 1]) == sent + BatchSends(b, envs[..i], ms[..i]) + Reaction(b, envs[i], ms[i]).sends
  {
    assert envs[..i + 1][..i] == envs[..i] && ms[..i + 1][..i] == ms[..i];
  }

  lemma BatchArmedStep(armed: seq<Timer>, b: Bot, envs: seq<Env>, ms: seq<Inbound>, nows: seq<int>, i: nat)
    requires |envs| == |ms| == |nows| && forall k :: 0 <= k < |envs| ==> ValidEnv(envs[k])
    requires i < |ms|
    ensures BatchArmed(armed, b, envs[..i + 1], ms[..i + 1], nows[..i + 1])
      == ArmedAfter(BatchArmed(armed, b, envs[..i], ms[..i], nows[..i]), ms[i].key.remoteJid, nows[i], Reaction(b, envs[i], ms[i]).reminder)
  {
    assert envs[..i + 1][..i] == envs[..i] && ms[..i + 1][..i] == ms[..i] && nows[..i + 1][..i] == nows[..i];
  }

  lemma BatchPendingStep(pending: map<int, Timer>, b: Bot, envs: seq<Env>, ms: seq<Inbound>, nows: seq<int>, i: nat)
    requires |envs| == |ms| == |nows| && forall k :: 0 <= k < |envs| ==> ValidEnv(envs[k])
    requires i < |ms|
    ensures BatchPending(pending, b, envs[..i + 1], ms[..i + 1], nows[..i + 1])
      == PendingAfter(BatchPending(pending, b, envs[..i], ms[..i], nows[..i]), ms[i].key.remoteJid, nows[i], Reaction(b, envs[i], ms[i]).reminder)
  {
    assert envs[..i + 1][..i] == envs[..i] && ms[..i + 1][..i] == ms[..i] && nows[..i + 1][..i] == nows[..i];
  }

  // ---------------------------------------------------------------- the imperative loop

  /** The auto-moderation step of the loop: delete and warn when the rule holds. */
  method Moderate(moderationGroups: seq<string>, out: Outbox, meta: Metadata, m: Inbound)
    modifies out
    ensures out.sent == old(out.sent) + ModerationSends(moderationGroups, meta, m)
  {
    var groupId := m.key.remoteJid;
    var senderId := SenderId(m.key);
    var messageText := MessageText(m);
    var flagged := HasUnauthorizedContent(messageText);
    if messageText != "" && flagged && IsModerationEnabled(moderationGroups, groupId) {
      var botAdmin := IsBotAdmin(meta);
      var senderAdmin := IsUserAdmin(meta, senderId);
      if botAdmin && !senderAdmin {
        DeleteAndWarn(out, groupId, m.key, senderId);
        return;
      }
    }
    assert !ShouldDelete(moderationGroups, meta, m);
  }

  /** deleteMessage followed by the warning. */
  method DeleteAndWarn(out: Outbox, groupId: string, key: MessageKey, senderId: string)
    modifies out
    ensures out.sent == old(out.sent) + [Delete(groupId, key), ModerationWarning(groupId, senderId)]
  {
    out.Send(Delete(groupId, key));
    out.Send(ModerationWarning(groupId, senderId));
  }

  /** The body of the message loop for one message. */
  method OnMessage(b: Bot, out: Outbox, sched: Scheduler, env: Env, m: Inbound, now: int)
    requires sched.Valid() && ValidEnv(env)
    modifies out, sched
    ensures sched.Valid()
    ensures out.sent == old(out.sent) + Reaction(b, env, m).sends
    ensures sched.armed == ArmedAfter(old(sched.armed), m.key.remoteJid, now, Reaction(b, env, m).reminder)
    ensures sched.pending == PendingAfter(old(sched.pending), m.key.remoteJid, now, Reaction(b, env, m).reminder)
  {
    if !EndsWith(m.key.remoteJid, "@g.us") {
      assert Reaction(b, env, m) == Outcome([], None);
      return;
    }
    ghost var before := out.sent;
    GroupReaction(b, env, m);
    Moderate(b.moderationGroups, out, env.meta, m);
    HandleCommand(b, out, sched, env, m, now);
    SendRuns(before, ModerationSends(b.moderationGroups, env.meta, m), Route(b, env, m).sends);
  }

  /** The "messages.upsert" handler: a batch of type other than "notify" is ignored; otherwise
      every message is handled in order, message k at time nows[k]. */
  method OnUpsert(b: Bot, out: Outbox, sched: Scheduler, kind: string, envs: seq<Env>, ms: seq<Inbound>, nows: seq<int>)
    requires sched.Valid()
    requires |envs| == |ms| == |nows| && forall k :: 0 <= k < |envs| ==> ValidEnv(envs[k])
    modifies out, sched
    ensures sched.Valid()
    ensures kind != "notify" ==> out.sent == old(out.sent) && sched.armed == old(sched.armed) && sched.pending == old(sched.pending)
    ensures kind == "notify" ==> out.sent == old(out.sent) + BatchSends(b, envs, ms)
    ensures kind == "notify" ==> sched.armed == BatchArmed(old(sched.armed), b, envs, ms, nows)
    ensures kind == "notify" ==> sched.pending == BatchPending(old(sched.pending), b, envs, ms, nows)
  {
    if kind != "notify" {
      return;
    }
    var i := 0;
    while i < |ms|
      invariant 0 <= i <= |ms|
      invariant sched.Valid()
      invariant out.sent == old(out.sent) + BatchSends(b, envs[..i], ms[..i])
      invariant sched.armed == BatchArmed(old(sched.armed), b, envs[..i], ms[..i], nows[..i])
      invariant sched.pending == BatchPending(old(sched.pending), b, envs[..i], ms[..i], nows[..i])
    {
      OnMessage(b, out, sched, envs[i], ms[i], nows[i]);
      BatchSendsStep(old(out.sent), b, envs, ms, i);
      BatchArmedStep(old(sched.armed), b, envs, ms, nows, i);
      BatchPendingStep(old(sched.pending), b, envs, ms, nows, i);
      i := i + 1;
    }
    assert envs[..i] == envs && ms[..i] == ms && nows[..i] == nows;
  }
}
