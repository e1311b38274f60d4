/** The AI chat side of the bot: the per-group conversation store, the model load balancer with its
    one-minute usage windows, and the chat call that drives both. The completion request itself is
    an input: its answer or its error message is passed in. */
module Groq {
  import opened Text
  import opened Personalities

  datatype Role = System | User | Assistant

  /** One `{ role, content }` entry of a conversation. */
  datatype Turn = Turn(role: Role, content: string)

  /** The turns of the sample exchanges: each question as a user turn, then its answer. */
  function SampleTurns(qas: seq<QA>): (h: seq<Turn>)
    ensures |h| == 2 * |qas|
    ensures forall i :: 0 <= i < |h| ==> h[i].role != System
  {
    if qas == [] then []
    else
      var last := qas[|qas| - 1];
      SampleTurns(qas[..|qas| - 1]) + [Turn(User, last.question), Turn(Assistant, last.answer)]
  }

  /** The i-th exchange is the user turn at 2i followed by the assistant turn at 2i + 1. */
  lemma {:induction false} SampleTurnsAt(qas: seq<QA>, i: nat)
    requires i < |qas|
    ensures SampleTurns(qas)[2 * i] == Turn(User, qas[i].question)
    ensures SampleTurns(qas)[2 * i + 1] == Turn(Assistant, qas[i].answer)
    decreases |qas|
  {
    var k := |qas| - 1;
    if i < k {
      SampleTurnsAt(qas[..k], i);
      assert qas[..k][i] == qas[i];
    }
  }

  /** The history a group starts with: the system prompt, then the sample exchanges. */
  function Seed(p: Personality): (h: seq<Turn>)
    ensures |h| == 1 + 2 * |p.sampleQAs|
    ensures h[0] == Turn(System, p.systemPrompt)
    ensures forall i :: 1 <= i < |h| ==> h[i].role != System
  {
    var h := [Turn(System, p.systemPrompt)] + SampleTurns(p.sampleQAs);
    assert forall i :: 1 <= i < |h| ==> h[i] == SampleTurns(p.sampleQAs)[i - 1];
    h
  }

  /** Builds the seed one exchange at a time, as the forEach in getConversationHistory does. */
  method SeedHistory(p: Personality) returns (h: seq<Turn>)
    ensures h == Seed(p)
  {
    h := [Turn(System, p.systemPrompt)];
    var i := 0;
    while i < |p.sampleQAs|
      invariant 0 <= i <= |p.sampleQAs|
      invariant h == [Turn(System, p.systemPrompt)] + SampleTurns(p.sampleQAs[..i])
    {
      var qa := p.sampleQAs[i];
      assert p.sampleQAs[..i + 1][..i] == p.sampleQAs[..i];
      h := h + [Turn(User, qa.question)];
      h := h + [Turn(Assistant, qa.answer)];
      i := i + 1;
    }
    assert p.sampleQAs[..i] == p.sampleQAs;
  }

  /** The seeds of the two personalities hold 9 and 5 turns. */
  lemma SeedSizes()
    ensures |Seed(ChhapriBhaiya)| == 9 && |Seed(TobiasRieper)| == 5
  {
    SampleCounts();
  }

  const MaxHistory: nat := 21
  const HeadKept: nat := 11
  const TailKept: nat := 10

  /** The entries with the system role, in order. */
  function SystemTurns(s: seq<Turn>): (r: seq<Turn>)
    ensures forall t :: t in r <==> t in s && t.role == System
    ensures (forall i :: 0 <= i < |s| ==> s[i].role != System) ==> r == []
  {
    if s == [] then []
    else
      var init := SystemTurns(s[..|s| - 1]);
      var t := s[|s| - 1];
      assert forall u :: u in s <==> u in s[..|s| - 1] || u == t;
      if t.role == System then init + [t] else init
  }

  /** `history.filter(msg => msg.role === "system" || history.indexOf(msg) < 11)`. Every entry is a
      distinct object, so its index is its position: the first 11 entries and every later system
      entry. */
  function KeepHead(h: seq<Turn>): (r: seq<Turn>)
    ensures |h| <= HeadKept ==> r == h
    ensures |h| > HeadKept ==> (|r| >= HeadKept && r[..HeadKept] == h[..HeadKept]
      && forall t :: t in r[HeadKept..] <==> t in h[HeadKept..] && t.role == System)
  {
    if |h| <= HeadKept then h else h[..HeadKept] + SystemTurns(h[HeadKept..])
  }

  /** The stored history after an entry has been pushed onto `h`: unchanged up to 21 entries,
      otherwise the kept head followed by the last 10 entries. */
  function Trimmed(h: seq<Turn>): (r: seq<Turn>)
    ensures |h| <= MaxHistory ==> r == h
    ensures |h| > MaxHistory ==> |r| >= HeadKept + TailKept && r[..HeadKept] == h[..HeadKept] && r[|r| - TailKept..] == h[|h| - TailKept..]
  {
    if |h| > MaxHistory then KeepHead(h) + h[|h| - TailKept..] else h
  }

  /** A stored history: at most 21 entries, the system prompt first and nowhere else. */
  predicate WellShaped(h: seq<Turn>) {
    0 < |h| <= MaxHistory && h[0].role == System && forall i :: 1 <= i < |h| ==> h[i].role != System
  }

  /** Appending a user or assistant turn to a stored history and trimming keeps it well shaped. A
      history that grows past 21 entries becomes its first 11 entries and its last 10, and any
      prefix of at most 11 entries, the seed in particular, survives. */
  lemma AppendTrimmed(h: seq<Turn>, t: Turn, seed: seq<Turn>)
    requires WellShaped(h) && t.role != System
    requires |seed| <= HeadKept && seed <= h
    ensures WellShaped(Trimmed(h + [t]))
    ensures |h| < MaxHistory ==> Trimmed(h + [t]) == h + [t]
    ensures |h| == MaxHistory ==> Trimmed(h + [t]) == (h + [t])[..HeadKept] + (h + [t])[|h| + 1 - TailKept..]
    ensures seed <= Trimmed(h + [t])
  {
    var n := h + [t];
    if |n| > MaxHistory {
      var tail := n[HeadKept..];
      assert forall i :: 0 <= i < |tail| ==> tail[i] == n[HeadKept + i];
      assert SystemTurns(tail) == [];
      var r := Trimmed(n);
      assert r == n[..HeadKept] + n[|n| - TailKept..];
      assert seed <= n[..HeadKept];
      assert r[..HeadKept] == n[..HeadKept];
      forall i | 1 <= i < |r|
        ensures r[i].role != System
      {
        if i < HeadKept {
          assert r[i] == n[i];
        } else {
          assert r[i] == n[|n| - TailKept + (i - HeadKept)];
        }
      }
    }
  }

  /** The seed of a group's conversation, chosen through GROUP_PERSONALITIES. */
  function SeedOf(personalities: map<string, string>, group: string): seq<Turn> {
    Seed(GetPersonalityForGroup(personalities, group))
  }

  /** Both seeds are well shaped and short enough to lie within the kept head. */
  lemma SeedOfFits(personalities: map<string, string>, group: string)
    ensures WellShaped(SeedOf(personalities, group)) && |SeedOf(personalities, group)| <= HeadKept
  {
    SeedSizes();
  }

  /** Every stored history is well shaped and still starts with its group's seed. */
  predicate HistoriesValid(personalities: map<string, string>, histories: map<string, seq<Turn>>) {
    forall g :: g in histories ==> WellShaped(histories[g]) && SeedOf(personalities, g) <= histories[g]
  }

  lemma HistoriesUpdate(personalities: map<string, string>, histories: map<string, seq<Turn>>, group: string, h: seq<Turn>)
    requires HistoriesValid(personalities, histories)
    requires WellShaped(h) && SeedOf(personalities, group) <= h
    ensures HistoriesValid(personalities, histories[group := h])
  {
  }

  /** The conversation of every group that has talked to the bot. `personalities` is
      GROUP_PERSONALITIES, which chooses the seed of each group. */
  class ConversationStore {
    const personalities: map<string, string>
    var histories: map<string, seq<Turn>>

    predicate Valid()
      reads this
    {
      HistoriesValid(personalities, histories)
    }

    /** The history the group has, or the one it would be given now. */
    function Current(group: string): seq<Turn>
      reads this
    {
      if group in histories then histories[group] else SeedOf(personalities, group)
    }

    constructor (personalities: map<string, string>)
      ensures Valid()
      ensures this.personalities == personalities && histories == map[]
    {
      this.personalities := personalities;
      histories := map[];
    }

    /** getConversationHistory: a group seen for the first time is given its seed; afterwards its
        stored history is returned unchanged. */
    method GetConversationHistory(group: string) returns (h: seq<Turn>)
      requires Valid()
      modifies this
      ensures Valid()
      ensures histories == old(histories)[group := old(Current(group))]
      ensures h == histories[group] && WellShaped(h) && SeedOf(personalities, group) <= h
    {
      if group !in histories {
        var p := GetPersonalityForGroup(personalities, group);
        var seed := SeedHistory(p);
        SeedOfFits(personalities, group);
        HistoriesUpdate(personalities, histories, group, seed);
        histories := histories[group := seed];
      } else {
        assert histories == histories[group := histories[group]];
      }
      h := histories[group];
    }

    /** addToHistory: push the turn, then trim the stored history when it passes 21 entries. The
        push extends the stored list itself, so the group's entry is written once, with the pushed
        or the trimmed list. */
    method AddToHistory(group: string, role: Role, content: string)
      requires Valid() && role != System
      modifies this
      ensures Valid()
      ensures histories == old(histories)[group := Trimmed(old(Current(group)) + [Turn(role, content)])]
    {
      var h := GetConversationHistory(group);
      var n := h + [Turn(role, content)];
      var systemAndSamples := KeepHead(n);
      var recentMessages := if |n| >= TailKept then n[|n| - TailKept..] else n;
      var stored := n;
      if |n| > MaxHistory {
        stored := systemAndSamples + recentMessages;
      }
      TrimmedCases(n);
      SeedOfFits(personalities, group);
      AppendTrimmed(h, Turn(role, content), SeedOf(personalities, group));
      HistoriesUpdate(personalities, histories, group, stored);
      MapOverwrite(old(histories), group, h, stored);
      histories := histories[group := stored];
    }
  }

  lemma TrimmedCases(n: seq<Turn>)
    ensures |n| > MaxHistory ==> Trimmed(n) == KeepHead(n) + n[|n| - TailKept..]
    ensures |n| <= MaxHistory ==> Trimmed(n) == n
  {
  }

  lemma MapOverwrite<K, V>(m: map<K, V>, k: K, a: V, b: V)
    ensures m[k := a][k := b] == m[k := b]
  {
  }

  /** The length of the usage window, in milliseconds. */
  const WindowMs: int := 60000

  /** The timestamps still inside the window that ends at `now`. */
  function Recent(ts: seq<int>, now: int): (r: seq<int>)
    ensures |r| <= |ts|
    ensures forall t :: t in r <==> t in ts && t > now - WindowMs
    ensures forall t :: multiset(r)[t] == if t > now - WindowMs then multiset(ts)[t] else 0
  {
    if ts == [] then []
    else
      var init := Recent(ts[..|ts| - 1], now);
      var t := ts[|ts| - 1];
      assert forall u :: u in ts <==> u in ts[..|ts| - 1] || u == t;
      assert ts == ts[..|ts| - 1] + [t];
      if t > now - WindowMs then init + [t] else init
  }

  /** The window keeps the order of the timestamps: filtering a concatenation filters each part. */
  lemma {:induction false} RecentInOrder(a: seq<int>, b: seq<int>, now: int)
    ensures Recent(a + b, now) == Recent(a, now) + Recent(b, now)
    decreases |b|
  {
    if b == [] {
      assert a + b == a;
    } else {
      var init := b[..|b| - 1];
      var t := b[|b| - 1];
      var last := if t > now - WindowMs then [t] else [];
      RecentInOrder(a, init, now);
      assert (a + b)[..|a + b| - 1] == a + init;
      assert (a + b)[|a + b| - 1] == t;
      assert Recent(a + b, now) == Recent(a + init, now) + last;
      assert Recent(b, now) == Recent(init, now) + last;
    }
  }

  /** The usage table after the cleaning pass: each window cut to the last minute, empty windows
      removed. */
  function Pruned(usage: map<string, seq<int>>, now: int): map<string, seq<int>> {
    map m | m in usage && Recent(usage[m], now) != [] :: Recent(usage[m], now)
  }

  /** After cleaning, a model keeps a window exactly when it was used in the last minute, and its
      window holds exactly its requests of that minute. */
  lemma PrunedWindows(usage: map<string, seq<int>>, now: int, m: string)
    ensures m in Pruned(usage, now) <==> m in usage && exists t :: t in usage[m] && t > now - WindowMs
    ensures m in Pruned(usage, now) ==>
      forall t :: t in Pruned(usage, now)[m] <==> t in usage[m] && t > now - WindowMs
  {
    if m in usage && exists t :: t in usage[m] && t > now - WindowMs {
      var t :| t in usage[m] && t > now - WindowMs;
      assert t in Recent(usage[m], now);
    }
    if m in Pruned(usage, now) {
      var r := Recent(usage[m], now);
      assert r[0] in r;
    }
  }

  /** `modelUsage.get(model)?.length || 0` */
  function Count(usage: map<string, seq<int>>, model: string): nat {
    if model in usage then |usage[model]| else 0
  }

  function Counts(usage: map<string, seq<int>>, models: seq<string>): (c: seq<nat>)
    ensures |c| == |models| && forall i :: 0 <= i < |models| ==> c[i] == Count(usage, models[i])
  {
    seq(|models|, i requires 0 <= i < |models| => Count(usage, models[i]))
  }

  /** The index the selection loop settles on: the fewest requests strictly below the threshold,
      the earliest such index on a tie, none when every count has reached the threshold. */
  function Lowest(c: seq<nat>, threshold: int): (j: Option<nat>)
    ensures j.None? <==> forall i :: 0 <= i < |c| ==> c[i] >= threshold
    ensures j.Some? ==> j.value < |c| && c[j.value] < threshold
    ensures j.Some? ==> forall i :: 0 <= i < |c| && c[i] < threshold ==> c[j.value] <= c[i]
    ensures j.Some? ==> forall i :: 0 <= i < j.value ==> c[i] >= threshold || c[i] > c[j.value]
  {
    if c == [] then None
    else
      var k := |c| - 1;
      var p := Lowest(c[..k], threshold);
      assert forall i :: 0 <= i < k ==> c[..k][i] == c[i];
      if c[k] < threshold && (p.None? || c[k] < c[p.value]) then Some(k) else p
  }

  /** One more count either becomes the new best or leaves the choice as it was. */
  lemma LowestStep(c: seq<nat>, i: nat, threshold: int)
    requires i < |c|
    ensures Lowest(c[..i + 1], threshold) ==
      var p := Lowest(c[..i], threshold);
      if c[i] < threshold && (p.None? || c[i] < c[p.value]) then Some(i) else p
  {
    assert c[..i + 1][..i] == c[..i];
    var p := Lowest(c[..i], threshold);
    if p.Some? {
      assert c[..i][p.value] == c[p.value];
    }
  }

  /** The model the balancer picks from a cleaned table: the best qualifying model, or the model at
      the fallback index when none qualifies. */
  function Selected(models: seq<string>, usage: map<string, seq<int>>, threshold: int, fallback: nat): string
    requires fallback < |models|
  {
    match Lowest(Counts(usage, models), threshold)
    case Some(j) => models[j]
    case None => models[fallback]
  }

  /** The table after one request to `model` at `now`. */
  function Recorded(usage: map<string, seq<int>>, model: string, now: int): map<string, seq<int>> {
    usage[model := (if model in usage then usage[model] else []) + [now]]
  }

  /** Recording a request adds exactly one request, at `now`, to the chosen model's window and
      leaves every other window as it was. */
  lemma RecordedAddsOne(usage: map<string, seq<int>>, model: string, now: int)
    ensures Count(Recorded(usage, model, now), model) == Count(usage, model) + 1
    ensures Recorded(usage, model, now)[model][Count(usage, model)] == now
    ensures forall m :: m != model ==> (m in Recorded(usage, model, now) <==> m in usage)
    ensures forall m :: m != model && m in usage ==> Recorded(usage, model, now)[m] == usage[m]
  {
  }

  /** The load balancer: GROQ_MODELS, RATE_LIMIT_THRESHOLD, the per-model request timestamps and the
      fallback index. */
  class LoadBalancer {
    const models: seq<string>
    const threshold: int
    var usage: map<string, seq<int>>
    var currentModelIndex: nat

    predicate Valid()
      reads this
    {
      |models| > 0 && currentModelIndex < |models| && forall m :: m in usage ==> usage[m] != []
    }

    constructor (models: seq<string>, threshold: int)
      requires |models| > 0
      ensures Valid()
      ensures this.models == models && this.threshold == threshold
      ensures usage == map[] && currentModelIndex == 0
    {
      this.models := models;
      this.threshold := threshold;
      usage := map[];
      currentModelIndex := 0;
    }

    /** The cleaning pass: every model is visited once; its window is cut to the last minute and
        dropped when nothing is left. */
    method Prune(now: int)
      requires Valid()
      modifies this
      ensures Valid()
      ensures usage == Pruned(old(usage), now) && currentModelIndex == old(currentModelIndex)
    {
      ghost var u0 := usage;
      var keys := usage.Keys;
      while keys != {}
        invariant keys <= u0.Keys
        invariant forall m :: m in usage <==> m in u0 && (m in keys || Recent(u0[m], now) != [])
        invariant forall m :: m in usage ==> usage[m] == if m in keys then u0[m] else Recent(u0[m], now)
        invariant currentModelIndex == old(currentModelIndex)
        decreases keys
      {
        var m :| m in keys;
        var recentRequests := Recent(usage[m], now);
        if recentRequests == [] {
          usage := usage - {m};
        } else {
          usage := usage[m := recentRequests];
        }
        keys := keys - {m};
      }
      assert usage.Keys == Pruned(u0, now).Keys;
    }

    /** The selection loop, over the table as it stands. */
    method SelectModel() returns (bestModel: string)
      requires Valid()
      ensures bestModel == Selected(models, usage, threshold, currentModelIndex)
    {
      var c := Counts(usage, models);
      bestModel := models[currentModelIndex];
      var lowestUsage: Option<nat> := None;
      var i := 0;
      while i < |models|
        invariant 0 <= i <= |models|
        invariant match Lowest(c[..i], threshold)
          case None => lowestUsage.None? && bestModel == models[currentModelIndex]
          case Some(j) => j < i && lowestUsage == Some(c[j]) && bestModel == models[j]
      {
        var modelUsage := Count(usage, models[i]);
        assert modelUsage == c[i];
        LowestStep(c, i, threshold);
        if (lowestUsage.None? || modelUsage < lowestUsage.value) && modelUsage < threshold {
          lowestUsage := Some(modelUsage);
          bestModel := models[i];
        }
        i := i + 1;
      }
      assert c[..i] == c;
    }

    /** Track the request: the chosen model's window gains `now`. */
    method Record(model: string, now: int)
      requires Valid()
      modifies this
      ensures Valid()
      ensures usage == Recorded(old(usage), model, now) && currentModelIndex == old(currentModelIndex)
    {
      if model !in usage {
        usage := usage[model := []];
      }
      usage := usage[model := usage[model] + [now]];
    }

    /** getAvailableModel: clean, select, record. */
    method GetAvailableModel(now: int) returns (model: string)
      requires Valid()
      modifies this
      ensures Valid()
      ensures model == Selected(models, Pruned(old(usage), now), threshold, old(currentModelIndex))
      ensures usage == Recorded(Pruned(old(usage), now), model, now)
      ensures currentModelIndex == old(currentModelIndex)
    {
      Prune(now);
      model := SelectModel();
      Record(model, now);
    }

    /** The switch to the next model after a rate-limit or quota error. */
    method RotateModel()
      requires Valid()
      modifies this
      ensures Valid()
      ensures currentModelIndex == (old(currentModelIndex) + 1) % |models| && usage == old(usage)
    {
      currentModelIndex := (currentModelIndex + 1) % |models|;
    }
  }

  const WebKeywords: seq<string> :=
    ["current", "today", "latest", "recent", "news", "price", "weather", "happening", "now"]

  /** The note, written around its first keyword. */
  const WebNote: string := NoteLead + "current" + NoteRest
  const NoteLead: string := "\n\n[Note: If you need "
  const NoteRest: string :=
    " information, mention that you don't have real-time data and suggest the user check reliable sources.]"

  /** The message, lower-cased, contains one of the keywords anywhere, inside a longer word too. */
  predicate NeedsWebSearch(message: string) {
    exists k :: 0 <= k < |WebKeywords| && Contains(LowerAscii(message), WebKeywords[k])
  }

  /** addWebSearchContext: the message with the note appended when it asks about current events. */
  function AddWebSearchContext(message: string): (r: string)
    ensures StartsWith(r, message)
    ensures r == message || r == message + WebNote
  {
    if NeedsWebSearch(message) then message + WebNote else message
  }

  /** A lower-case word inside a suffix of `s` is found in `s` lower-cased. */
  lemma SuffixHoldsWord(s: string, lead: string, word: string, rest: string)
    requires EndsWith(s, lead + word + rest) && LowerAscii(word) == word
    ensures Contains(LowerAscii(s), word)
  {
    var d := |s| - |lead + word + rest| + |lead|;
    var l := LowerAscii(s);
    forall k | 0 <= k < |word|
      ensures l[d + k] == word[k]
    {
      assert s[d + k] == (lead + word + rest)[|lead| + k] == word[k];
      assert LowerAscii(word)[k] == LowerChar(word[k]);
    }
    assert l[d..d + |word|] == word;
    ContainsAt(l, word, d);
  }

  /** The reply ends with the note exactly when the message asks about current events: a message
      that already ends with the note contains "current" and so asks. */
  lemma WebNoteIffNeeded(message: string)
    ensures EndsWith(AddWebSearchContext(message), WebNote) <==> NeedsWebSearch(message)
  {
    var r := AddWebSearchContext(message);
    if NeedsWebSearch(message) {
      assert r[|r| - |WebNote|..] == WebNote;
    } else if EndsWith(message, WebNote) {
      SuffixHoldsWord(message, NoteLead, WebKeywords[0], NoteRest);
      assert false;
    }
  }

  /** Keywords match inside words: "I know" gets the note because of "now". */
  lemma WebKeywordInsideWord()
    ensures AddWebSearchContext("I know") == "I know" + WebNote
  {
    ContainsAt(LowerAscii("I know"), WebKeywords[8], 3);
  }

  /** An entry of `extractMentionedUsers`. */
  datatype Mention = Mention(jid: string, number: string)

  /** extractMentionedUsers: each id with its number, in order. */
  method ExtractMentionedUsers(mentionedJids: seq<string>) returns (mentions: seq<Mention>)
    ensures |mentions| == |mentionedJids|
    ensures forall i :: 0 <= i < |mentionedJids| ==>
      mentions[i].jid == mentionedJids[i] && StartsWith(mentionedJids[i], mentions[i].number)
      && '@' !in mentions[i].number
    ensures forall i :: 0 <= i < |mentionedJids| && '@' in mentionedJids[i] ==>
      |mentions[i].number| < |mentionedJids[i]| && mentionedJids[i][|mentions[i].number|] == '@'
    ensures forall i :: 0 <= i < |mentionedJids| && '@' !in mentionedJids[i] ==> mentions[i].number == mentionedJids[i]
  {
    mentions := [];
    var i := 0;
    while i < |mentionedJids|
      invariant 0 <= i <= |mentionedJids|
      invariant |mentions| == i
      invariant forall k :: 0 <= k < i ==> mentions[k] == Mention(mentionedJids[k], UserPart(mentionedJids[k]))
    {
      var jid := mentionedJids[i];
      mentions := mentions + [Mention(jid, UserPart(jid))];
      i := i + 1;
    }
  }

  function MentionHandles(mentions: seq<Mention>): (r: seq<string>)
    ensures |r| == |mentions| && forall i :: 0 <= i < |mentions| ==> r[i] == "@" + mentions[i].number
  {
    seq(|mentions|, i requires 0 <= i < |mentions| => "@" + mentions[i].number)
  }

  /** The user turn stored for a chat message: the message with its web note, and the mentioned
      numbers when there are any. */
  function UserTurnText(message: string, mentions: seq<Mention>): (r: string)
    ensures StartsWith(r, AddWebSearchContext(message))
    ensures mentions == [] ==> r == AddWebSearchContext(message)
    ensures mentions != [] ==> Contains(r, MentionNote)
    ensures forall i :: 0 <= i < |mentions| ==> Contains(r, "@" + mentions[i].number)
  {
    var enhanced := AddWebSearchContext(message);
    if |mentions| > 0 then
      var handles := Join(MentionHandles(mentions), ", ");
      var r := enhanced + MentionNote + handles + "]";
      assert r == (enhanced + MentionNote) + (handles + "]");
      ContainsAt(MentionNote, MentionNote, 0);
      ContainsInRight(enhanced, MentionNote, MentionNote);
      ContainsInLeft(enhanced + MentionNote, handles + "]", MentionNote);
      forall i | 0 <= i < |mentions|
        ensures Contains(r, "@" + mentions[i].number)
      {
        JoinHoldsPart(MentionHandles(mentions), ", ", i);
        ContainsInLeft(handles, "]", "@" + mentions[i].number);
        ContainsInRight(enhanced + MentionNote, handles + "]", "@" + mentions[i].number);
      }
      r
    else enhanced
  }

  /** The line that introduces the mentioned handles in a user turn. */
  const MentionNote: string := "\n[User mentioned: "

  const SystemDown: string := "Arre yaar, abhi system down hai. Thodi der baad try kar 🙏"
  const NoAnswer: string := "Samajh nahi aaya bhai, dubara bol 🤔"
  const SlowDown: string := "Bhai thoda slow kar, bahut requests ho gaye. 2 min wait kar 😅"
  const TechnicalProblem: string := "Arre yaar kuch technical problem hai. Baad mein baat karte hain 🙏"

  /** The outcome of the completion request: the content of the first choice ("" when there is
      none), or the message of the error it threw. */
  datatype Completion = Answered(content: string) | Failed(message: string)

  /** The reply to an answered request: the answer, or the fallback text for an empty one, with the
      target's handle put in front unless the answer already holds it. `None` stands for a missing
      or empty `targetMention`, which the source's truthiness test treats alike. */
  function FinalResponse(content: string, targetMention: Option<string>): (r: string)
    ensures r != ""
    ensures targetMention.Some? ==> Contains(r, "@" + UserPart(targetMention.value))
    ensures targetMention.None? ==> r == if content == "" then NoAnswer else content
    ensures EndsWith(r, if content == "" then NoAnswer else content)
  {
    var response := if content == "" then NoAnswer else content;
    match targetMention
    case None => response
    case Some(t) =>
      var handle := "@" + UserPart(t);
      if Contains(response, handle) then response
      else
        PrefixedHandle(handle, response);
        handle + " " + response
  }

  lemma PrefixedHandle(handle: string, response: string)
    ensures Contains(handle + " " + response, handle) && EndsWith(handle + " " + response, response)
  {
    var r := handle + " " + response;
    assert r[..|handle|] == handle;
    ContainsAt(r, handle, 0);
    assert r[|r| - |response|..] == response;
  }

  predicate IsRateLimit(message: string) {
    Contains(message, "rate_limit") || Contains(message, "quota")
  }

  /** The text chatWithAI returns once the API key is present. */
  function ChatReply(completion: Completion, targetMention: Option<string>): (r: string)
    ensures r != ""
    ensures completion.Answered? && targetMention.Some? ==> Contains(r, "@" + UserPart(targetMention.value))
    ensures completion.Failed? ==> r == (if IsRateLimit(completion.message) then SlowDown else TechnicalProblem)
  {
    match completion
    case Answered(content) => FinalResponse(content, targetMention)
    case Failed(message) => if IsRateLimit(message) then SlowDown else TechnicalProblem
  }

  /** The fallback index after the completion: moved on by one, cyclically, after a rate-limit or
      quota error, unchanged otherwise. */
  function NextModelIndex(completion: Completion, index: nat, modelCount: nat): (r: nat)
    requires index < modelCount
    ensures r < modelCount
    ensures completion.Answered? ==> r == index
  {
    if completion.Failed? && IsRateLimit(completion.message) then (index + 1) % modelCount else index
  }

  /** The first half of chatWithAI: the group's history is created if needed and the user turn,
      with its web note and mentions, is stored. */
  method StoreUserTurn(store: ConversationStore, group: string, userMessage: string, mentions: seq<Mention>)
    requires store.Valid()
    modifies store
    ensures store.Valid()
    ensures store.histories == old(store.histories)[group :=
      Trimmed(old(store.Current(group)) + [Turn(User, UserTurnText(userMessage, mentions))])]
  {
    ghost var h0 := store.histories;
    ghost var cur := store.Current(group);
    var history := store.GetConversationHistory(group);
    assert store.Current(group) == cur;
    var enhancedMessage := AddWebSearchContext(userMessage);
    if |mentions| > 0 {
      var mentionText := Join(MentionHandles(mentions), ", ");
      store.AddToHistory(group, User, enhancedMessage + "\n[User mentioned: " + mentionText + "]");
    } else {
      store.AddToHistory(group, User, enhancedMessage);
    }
    MapOverwrite(h0, group, cur, Trimmed(cur + [Turn(User, UserTurnText(userMessage, mentions))]));
  }

  /** The second half of chatWithAI: an answer is stored as the assistant turn; a rate-limit or
      quota error moves the fallback index on; no error touches the history. */
  method Conclude(store: ConversationStore, balancer: LoadBalancer, group: string, completion: Completion,
                  targetMention: Option<string>) returns (reply: string)
    requires store.Valid() && balancer.Valid()
    modifies store, balancer
    ensures store.Valid() && balancer.Valid()
    ensures reply == ChatReply(completion, targetMention)
    ensures completion.Answered? ==>
      store.histories == old(store.histories)[group := Trimmed(old(store.Current(group)) + [Turn(Assistant, reply)])]
    ensures completion.Failed? ==> store.histories == old(store.histories)
    ensures balancer.currentModelIndex == NextModelIndex(completion, old(balancer.currentModelIndex), |balancer.models|)
    ensures balancer.usage == old(balancer.usage)
  {
    match completion
    case Answered(content) =>
      reply := FinalResponse(content, targetMention);
      store.AddToHistory(group, Assistant, reply);
    case Failed(message) =>
      if IsRateLimit(message) {
        balancer.RotateModel();
        reply := SlowDown;
      } else {
        reply := TechnicalProblem;
      }
  }

  /** chatWithAI. Without an API key nothing changes. Otherwise the user turn is stored and the
      balancer records a request before the completion is known; then the reply is formed, an
      answer is stored as the assistant turn and a rate-limit or quota error moves the fallback
      index on. A `targetMention` of `None` stands for a missing or empty one. */
  method ChatWithAI(store: ConversationStore, balancer: LoadBalancer, group: string, userMessage: string,
                    mentions: seq<Mention>, targetMention: Option<string>, hasApiKey: bool, now: int,
                    completion: Completion) returns (reply: string)
    requires store.Valid() && balancer.Valid()
    modifies store, balancer
    ensures store.Valid() && balancer.Valid()
    ensures !hasApiKey ==>
      reply == SystemDown && store.histories == old(store.histories)
      && balancer.usage == old(balancer.usage) && balancer.currentModelIndex == old(balancer.currentModelIndex)
    ensures hasApiKey ==>
      var withUser := Trimmed(old(store.Current(group)) + [Turn(User, UserTurnText(userMessage, mentions))]);
      var model := Selected(balancer.models, Pruned(old(balancer.usage), now), balancer.threshold, old(balancer.currentModelIndex));
      reply == ChatReply(completion, targetMention)
      && balancer.usage == Recorded(Pruned(old(balancer.usage), now), model, now)
      && balancer.currentModelIndex == NextModelIndex(completion, old(balancer.currentModelIndex), |balancer.models|)
      && store.histories == old(store.histories)[group :=
           if completion.Answered? then Trimmed(withUser + [Turn(Assistant, reply)]) else withUser]
  {
    if !hasApiKey {
      return SystemDown;
    }
    ghost var h0 := store.histories;
    ghost var withUser := Trimmed(store.Current(group) + [Turn(User, UserTurnText(userMessage, mentions))]);
    StoreUserTurn(store, group, userMessage, mentions);
    var model := balancer.GetAvailableModel(now);
    assert store.Current(group) == withUser;
    reply := Conclude(store, balancer, group, completion, targetMention);
    if completion.Answered? {
      MapOverwrite(h0, group, withUser, Trimmed(withUser + [Turn(Assistant, reply)]));
    }
  }
}
