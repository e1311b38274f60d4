/** Group helpers shared by the commands: the admin lookup over group metadata, the tag-all message
    and the reminder scheduler with its table of pending timers. */
module Utils {
  import opened Text
  import opened Transport
  import opened TrimFacts

  /** The bot's own id and the number inside it. */
  const BotJid: string := "145874957156514@lid"
  const BotNumber: string := "145874957156514"

  /** The header of a tag-all message sent without text. */
  const DefaultTagText: string := "Attention everyone! 📢"

  /** One member of a group as the group metadata lists it; `admin` is absent for plain members
      and "admin" or "superadmin" otherwise. */
  datatype Participant = Participant(id: string, admin: Option<string>)

  /** The member list of `sock.groupMetadata(group)`, or None when that call fails. */
  type Metadata = Option<seq<Participant>>

  predicate IsAdminRole(admin: Option<string>) {
    admin == Some("admin") || admin == Some("superadmin")
  }

  /** `participants.find(p => p.id === id)`: the first member with that id. */
  function FindParticipant(ps: seq<Participant>, id: string): (r: Option<Participant>)
    ensures r.None? <==> forall i :: 0 <= i < |ps| ==> ps[i].id != id
    ensures r.Some? ==> exists i :: 0 <= i < |ps| && ps[i] == r.value && ps[i].id == id
                                   && forall j :: 0 <= j < i ==> ps[j].id != id
  {
    if ps == [] then None
    else if ps[0].id == id then Some(ps[0])
    else
      var r := FindParticipant(ps[1..], id);
      assert forall i :: 1 <= i < |ps| ==> ps[i] == ps[1..][i - 1];
      r
  }

  predicate UniqueIds(ps: seq<Participant>) {
    forall i, j :: 0 <= i < j < |ps| ==> ps[i].id != ps[j].id
  }

  /** isUserAdmin: the first member with the user's id is an admin or a super admin; a failed
      metadata call counts as "not an admin". With unique ids this is simply "some member with the
      id is an admin". */
  function IsUserAdmin(meta: Metadata, userId: string): (r: bool)
    ensures r ==> meta.Some? && exists p :: p in meta.value && p.id == userId && IsAdminRole(p.admin)
    ensures meta.Some? && UniqueIds(meta.value) ==>
      (r <==> exists p :: p in meta.value && p.id == userId && IsAdminRole(p.admin))
  {
    match meta
    case None => false
    case Some(ps) =>
      var found := FindParticipant(ps, userId);
      found.Some? && IsAdminRole(found.value.admin)
  }

  /** isBotAdmin: the admin lookup for the bot's own id. */
  function IsBotAdmin(meta: Metadata): (r: bool)
    ensures r ==> meta.Some? && exists p :: p in meta.value && p.id == BotJid && IsAdminRole(p.admin)
  {
    IsUserAdmin(meta, BotJid)
  }

  /** A member is tagged unless it is the bot, by id or by number. */
  predicate IsTagged(id: string) {
    id != BotJid && !Contains(id, BotNumber)
  }

  /** The member ids of the group, in order, without the bot. */
  function TagTargets(ps: seq<Participant>): (r: seq<string>)
    ensures |r| <= |ps|
    ensures forall id :: id in r <==> IsTagged(id) && exists p :: p in ps && p.id == id
  {
    if ps == [] then []
    else
      var init := TagTargets(ps[..|ps| - 1]);
      var p := ps[|ps| - 1];
      assert forall q :: q in ps <==> q in ps[..|ps| - 1] || q == p;
      if IsTagged(p.id) then init + [p.id] else init
  }

  /** TagTargets keeps order and repeats: it distributes over concatenation, and a single
      participant gives its own id exactly when it is tagged. */
  lemma {:induction false} TagTargetsInOrder(a: seq<Participant>, b: seq<Participant>)
    ensures TagTargets(a + b) == TagTargets(a) + TagTargets(b)
    ensures |b| == 1 ==> TagTargets(b) == if IsTagged(b[0].id) then [b[0].id] else []
    decreases |b|
  {
    if b == [] {
      assert a + b == a;
    } else {
      var init := b[..|b| - 1];
      var p := b[|b| - 1];
      var last := if IsTagged(p.id) then [p.id] else [];
      TagTargetsInOrder(a, init);
      assert (a + b)[..|a + b| - 1] == a + init;
      assert (a + b)[|a + b| - 1] == p;
      assert TagTargets(a + b) == TagTargets(a + init) + last;
      assert TagTargets(b) == TagTargets(init) + last;
      assert |b| == 1 ==> init == [];
    }
  }

  /** "@<number> " for each target, the number being the part of the id before '@'. */
  function MentionLine(targets: seq<string>): (r: string)
    ensures r == [] <==> targets == []
    ensures |r| >= 2 * |targets|
    ensures targets != [] ==> r[|r| - 1] == ' '
  {
    if targets == [] then ""
    else MentionLine(targets[..|targets| - 1]) + "@" + UserPart(targets[|targets| - 1]) + " "
  }

  /** Each target's "@<number> " occurs in the mention line. */
  lemma {:induction false} MentionLineMentions(targets: seq<string>)
    ensures forall t :: t in targets ==> Contains(MentionLine(targets), "@" + UserPart(t) + " ")
  {
    if targets != [] {
      var init := targets[..|targets| - 1];
      var last := targets[|targets| - 1];
      MentionLineMentions(init);
      var piece := "@" + UserPart(last) + " ";
      assert MentionLine(targets) == MentionLine(init) + piece;
      ContainsAt(piece, piece, 0);
      ContainsConcat(MentionLine(init), piece, piece);
      forall t | t in targets
        ensures Contains(MentionLine(targets), "@" + UserPart(t) + " ")
      {
        if t != last {
          assert t in init;
          ContainsConcat(MentionLine(init), piece, "@" + UserPart(t) + " ");
        }
      }
    }
  }

  /** The header of the tag-all message: the given text, or the default one when it is empty. */
  function TagHeader(message: string): (h: string)
    ensures message != "" ==> h == message
    ensures message == "" ==> h == DefaultTagText
  {
    if message == "" then DefaultTagText else message
  }

  /** The text tagAll sends: header, a blank line, the mentions, trimmed. */
  function TagAllText(message: string, targets: seq<string>): (r: string)
    ensures r == [] || (!IsSpace(r[0]) && !IsSpace(r[|r| - 1]))
    ensures |r| <= |TagHeader(message)| + 2 + |MentionLine(targets)|
  {
    Trim(TagHeader(message) + "\n\n" + MentionLine(targets))
  }

  /** Every tagged member is mentioned in the text, provided its number does not end in white
      space (member ids are "<digits>@<server>"). */
  lemma TagAllMentionsEveryone(message: string, targets: seq<string>)
    requires forall t :: t in targets ==> UserPart(t) == [] || !IsSpace(UserPart(t)[|UserPart(t)| - 1])
    ensures forall t :: t in targets ==> Contains(TagAllText(message, targets), "@" + UserPart(t))
  {
    MentionLineMentions(targets);
    forall t | t in targets
      ensures Contains(TagAllText(message, targets), "@" + UserPart(t))
    {
      var word := "@" + UserPart(t);
      assert word[|word| - 1] == if UserPart(t) == [] then '@' else UserPart(t)[|UserPart(t)| - 1];
      TrimKeepsWord(TagHeader(message) + "\n\n", MentionLine(targets), word);
    }
  }

  /** A text that starts and ends with a non-space character heads the message unchanged; an empty
      one is replaced by the default header. */
  lemma TagAllKeepsHeader(message: string, targets: seq<string>)
    requires message == [] || (!IsSpace(message[0]) && !IsSpace(message[|message| - 1]))
    ensures StartsWith(TagAllText(message, targets), TagHeader(message))
    ensures message == [] ==> StartsWith(TagAllText(message, targets), DefaultTagText)
  {
    var h := TagHeader(message);
    var s := h + "\n\n" + MentionLine(targets);
    assert s[..|h|] == h;
    TrimKeepsPrefix(s, |h|);
  }

  /** Builds the mention text one member at a time, as the forEach in tagAll does. */
  method MentionText(header: string, targets: seq<string>) returns (text: string)
    ensures text == header + "\n\n" + MentionLine(targets)
  {
    text := header + "\n\n";
    var i := 0;
    while i < |targets|
      invariant 0 <= i <= |targets|
      invariant text == header + "\n\n" + MentionLine(targets[..i])
    {
      var number := UserPart(targets[i]);
      assert targets[..i + 1][..i] == targets[..i];
      text := text + "@" + number + " ";
      i := i + 1;
    }
    assert targets[..i] == targets;
  }

  /** tagAll: one text message mentioning every member but the bot; nothing when the metadata call
      fails. */
  method TagAll(out: Outbox, group: string, meta: Metadata, message: string)
    modifies out
    ensures meta.None? ==> out.sent == old(out.sent)
    ensures meta.Some? ==>
      var targets := TagTargets(meta.value);
      out.sent == old(out.sent) + [Text(group, TagAllText(message, targets), targets)]
  {
    if meta.None? {
      return;
    }
    var targets := TagTargets(meta.value);
    var text := MentionText(TagHeader(message), targets);
    out.Send(Text(group, Trim(text), targets));
  }

  /** A timer set by scheduleMessage. */
  datatype Timer = Timer(id: int, group: string, message: string, dueAt: int)

  /** The delay of a reminder, in milliseconds. */
  function DelayMs(minutes: int): (ms: int)
    ensures minutes > 0 ==> ms >= 60000
    ensures ms % 60000 == 0 && ms / 60000 == minutes
  {
    minutes * 60 * 1000
  }

  /** scheduledMessages with the timers behind it. The table maps a schedule id (the clock reading
      when it was set) to its timer; `armed` lists every timer that has not fired yet. Two reminders
      set in the same millisecond share an id, so the table keeps only the later one while both
      stay armed. */
  class Scheduler {
    var pending: map<int, Timer>
    var armed: seq<Timer>

    /** Every table entry is a timer that has not fired, stored under its own id. */
    predicate Valid()
      reads this
    {
      forall id :: id in pending ==> pending[id].id == id && pending[id] in armed
    }

    constructor ()
      ensures Valid()
      ensures pending == map[] && armed == []
    {
      pending := map[];
      armed := [];
    }

    /** scheduleMessage: arm a timer due `minutes` after `now` and record it under id `now`. */
    method Schedule(now: int, group: string, message: string, minutes: int) returns (id: int)
      requires Valid()
      modifies this
      ensures Valid()
      ensures id == now
      ensures armed == old(armed) + [Timer(now, group, message, now + DelayMs(minutes))]
      ensures pending == old(pending)[now := Timer(now, group, message, now + DelayMs(minutes))]
    {
      var t := Timer(now, group, message, now + DelayMs(minutes));
      armed := armed + [t];
      pending := pending[now := t];
      id := now;
    }

    /** The timer callback: the earliest armed timer fires, tags everyone with its message and
        drops its id from the table. */
    method Fire(k: nat, out: Outbox, meta: Metadata)
      requires Valid()
      requires k < |armed|
      requires forall j :: 0 <= j < |armed| ==> armed[k].dueAt <= armed[j].dueAt
      modifies this, out
      ensures Valid()
      ensures armed == old(armed[..k] + armed[k + 1..])
      ensures pending == old(pending) - {old(armed[k]).id}
      ensures meta.None? ==> out.sent == old(out.sent)
      ensures meta.Some? ==>
        var targets := TagTargets(meta.value);
        out.sent == old(out.sent) + [Text(old(armed[k]).group, TagAllText(old(armed[k]).message, targets), targets)]
    {
      var t := armed[k];
      TagAll(out, t.group, meta, t.message);
      pending := pending - {t.id};
      armed := armed[..k] + armed[k + 1..];
      forall id | id in pending
        ensures pending[id] in armed
      {
        var u := pending[id];
        var j :| 0 <= j < |old(armed)| && old(armed)[j] == u;
        assert u != t;
        assert j != k;
        if j < k {
          assert armed[j] == u;
        } else {
          assert armed[j - 1] == u;
        }
      }
    }
  }
}
