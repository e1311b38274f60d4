/** Which commands a group may use and which of them need a group admin. Both bot variants run the
    same lookups over the same per-group table; they differ in the global admin-only set. */
module CommandPermissions {
  import opened Text

  /** The two near-identical bots: the split one under src/ and the single-file server.js. */
  datatype Variant = Modular | Monolithic

  /** A group's entry in GROUP_COMMAND_CONFIG. */
  datatype GroupConfig = GroupConfig(allowed: seq<string>, adminOnly: seq<string>)

  /** GENERAL_COMMANDS, ADMIN_ONLY_COMMANDS and GROUP_COMMAND_CONFIG. */
  datatype Policy = Policy(general: seq<string>, globalAdmin: seq<string>, groups: map<string, GroupConfig>)

  const SablogGroup: string := "120363344697037274@g.us"
  const KrishnaGroup: string := "120363420376125136@g.us"

  /** The two configured ids differ at their seventh character. */
  lemma ConfiguredGroupsDiffer()
    ensures SablogGroup != KrishnaGroup
  {
    assert SablogGroup[6] != KrishnaGroup[6];
  }

  const GroupCommandConfig: map<string, GroupConfig> := map[
    SablogGroup := GroupConfig(["/tagall", "/meme", "/abuse", "/help", "/reminder", "/groupid"], ["/reminder", "/groupid"]),
    KrishnaGroup := GroupConfig(["/tagall", "/meme", "/abuse", "/help"], ["/reminder"])
  ]

  const GeneralCommands: seq<string> := ["/help", "/meme", "/abuse"]

  /** The policy of the src/ bot (src/config.js). */
  const ModularPolicy: Policy := Policy(GeneralCommands, ["/reminder", "/groupid"], GroupCommandConfig)

  /** The policy of server.js, where /tagall is admin-only everywhere. */
  const MonolithicPolicy: Policy := Policy(GeneralCommands, ["/tagall", "/reminder", "/groupid"], GroupCommandConfig)

  function PolicyOf(v: Variant): Policy {
    match v
    case Modular => ModularPolicy
    case Monolithic => MonolithicPolicy
  }

  /** No list of the table repeats a command: the general list, the global admin-only list, and
      each configured group's allowed and admin-only lists. */
  predicate WellFormed(p: Policy) {
    NoDup(p.general) && NoDup(p.globalAdmin)
    && forall g :: g in p.groups ==> NoDup(p.groups[g].allowed) && NoDup(p.groups[g].adminOnly)
  }

  /** Neither configured group repeats a command in either of its lists. */
  lemma ConfiguredListsNoDup(g: string)
    requires g in GroupCommandConfig
    ensures NoDup(GroupCommandConfig[g].allowed) && NoDup(GroupCommandConfig[g].adminOnly)
  {
    ConfiguredGroupsDiffer();
    assert GroupCommandConfig.Keys == {SablogGroup, KrishnaGroup};
    if g == SablogGroup {
      assert GroupCommandConfig[g] == GroupConfig(["/tagall", "/meme", "/abuse", "/help", "/reminder", "/groupid"], ["/reminder", "/groupid"]);
    } else {
      assert GroupCommandConfig[g] == GroupConfig(["/tagall", "/meme", "/abuse", "/help"], ["/reminder"]);
    }
  }

  /** Both shipped tables are well formed. */
  lemma ShippedPoliciesWellFormed(v: Variant)
    ensures WellFormed(PolicyOf(v))
  {
    forall g | g in PolicyOf(v).groups
      ensures NoDup(PolicyOf(v).groups[g].allowed) && NoDup(PolicyOf(v).groups[g].adminOnly)
    {
      ConfiguredListsNoDup(g);
    }
  }

  /** A general command works in every group; otherwise a command works only in a configured group
      that lists it. */
  predicate IsCommandAllowed(p: Policy, group: string, command: string)
    ensures command in p.general ==> IsCommandAllowed(p, group, command)
    ensures IsCommandAllowed(p, group, command)
        <==> command in p.general || (group in p.groups && command in p.groups[group].allowed)
  {
    if group !in p.groups then command in p.general
    else command in p.groups[group].allowed || command in p.general
  }

  /** A group's adminOnly list adds requirements to the global list and can never lift one. */
  predicate IsAdminRequired(p: Policy, group: string, command: string)
    ensures command in p.globalAdmin ==> IsAdminRequired(p, group, command)
    ensures IsAdminRequired(p, group, command)
        <==> command in p.globalAdmin || (group in p.groups && command in p.groups[group].adminOnly)
  {
    if group in p.groups && command in p.groups[group].adminOnly then true
    else command in p.globalAdmin
  }

  /** getAllowedCommands: exactly the commands IsCommandAllowed accepts, each once. */
  function AllowedCommands(p: Policy, group: string): (r: seq<string>)
    ensures WellFormed(p) ==> NoDup(r)
    ensures forall c :: c in r <==> IsCommandAllowed(p, group, c)
  {
    if group !in p.groups then p.general else Dedup(p.groups[group].allowed + p.general)
  }

  function GroupAdminOnly(p: Policy, group: string): seq<string> {
    if group in p.groups then p.groups[group].adminOnly else []
  }

  /** The elements of `s` that occur in `pool`, in order. */
  function OnlyIn(s: seq<string>, pool: seq<string>): (r: seq<string>)
    ensures |r| <= |s|
    ensures forall x :: x in r <==> x in s && x in pool
    ensures NoDup(s) ==> NoDup(r)
  {
    if s == [] then []
    else
      var init := OnlyIn(s[..|s| - 1], pool);
      var x := s[|s| - 1];
      assert s == s[..|s| - 1] + [x];
      if x in pool then init + [x] else init
  }

  lemma OnlyInSnoc(s: seq<string>, x: string, pool: seq<string>)
    ensures OnlyIn(s + [x], pool) == if x in pool then OnlyIn(s, pool) + [x] else OnlyIn(s, pool)
  {
    assert (s + [x])[..|s|] == s;
  }

  /** The elements of `s` that do not occur in `pool`, in order. */
  function NotIn(s: seq<string>, pool: seq<string>): (r: seq<string>)
    ensures |r| <= |s|
    ensures forall x :: x in r <==> x in s && x !in pool
    ensures NoDup(s) ==> NoDup(r)
  {
    if s == [] then []
    else
      var init := NotIn(s[..|s| - 1], pool);
      var x := s[|s| - 1];
      assert s == s[..|s| - 1] + [x];
      if x !in pool then init + [x] else init
  }

  /** getAdminOnlyCommands: every entry of the group's adminOnly list (allowed in the group or not)
      and every global admin-only command the group allows, each once; each needs an admin. */
  function AdminOnlyCommands(p: Policy, group: string): (r: seq<string>)
    ensures NoDup(r)
    ensures forall c :: (c in r <==>
      c in GroupAdminOnly(p, group) || (c in p.globalAdmin && IsCommandAllowed(p, group, c)))
    ensures forall c :: c in r ==> IsAdminRequired(p, group, c)
  {
    Dedup(GroupAdminOnly(p, group) + OnlyIn(p.globalAdmin, AllowedCommands(p, group)))
  }

  /** getAdminOnlyCommands as the source runs it: copy the group's list, append each allowed global
      admin-only command not yet present, then drop repeats. */
  method GetAdminOnlyCommands(p: Policy, group: string) returns (r: seq<string>)
    ensures r == AdminOnlyCommands(p, group)
  {
    var adminCommands := GroupAdminOnly(p, group);
    var allowed := AllowedCommands(p, group);
    var globals := p.globalAdmin;
    ghost var groupList := adminCommands;
    var i := 0;
    assert OnlyIn(globals[..0], allowed) == [];
    assert groupList + [] == groupList;
    while i < |globals|
      invariant 0 <= i <= |globals|
      invariant Dedup(adminCommands) == Dedup(groupList + OnlyIn(globals[..i], allowed))
    {
      var cmd := globals[i];
      AdminStep(adminCommands, groupList, globals, i, allowed);
      if cmd in allowed && cmd !in adminCommands {
        adminCommands := adminCommands + [cmd];
      }
      i := i + 1;
    }
    assert globals[..i] == globals;
    r := Dedup(adminCommands);
  }

  /** One pass of the loop in GetAdminOnlyCommands keeps its de-duplicated list equal to the
      de-duplicated list of the group's entries followed by the allowed globals seen so far. */
  lemma AdminStep(acc: seq<string>, groupList: seq<string>, globals: seq<string>, i: nat, allowed: seq<string>)
    requires i < |globals|
    requires Dedup(acc) == Dedup(groupList + OnlyIn(globals[..i], allowed))
    ensures Dedup(if globals[i] in allowed && globals[i] !in acc then acc + [globals[i]] else acc)
         == Dedup(groupList + OnlyIn(globals[..i + 1], allowed))
  {
    var cmd := globals[i];
    var done := OnlyIn(globals[..i], allowed);
    OnlyInPrefixStep(globals, i, allowed);
    if cmd in allowed {
      assert groupList + (done + [cmd]) == (groupList + done) + [cmd];
      AppendAbsent(acc, groupList + done, cmd);
    }
  }

  lemma OnlyInPrefixStep(s: seq<string>, i: nat, pool: seq<string>)
    requires i < |s|
    ensures OnlyIn(s[..i + 1], pool) == if s[i] in pool then OnlyIn(s[..i], pool) + [s[i]] else OnlyIn(s[..i], pool)
  {
    assert s[..i + 1] == s[..i] + [s[i]];
    OnlyInSnoc(s[..i], s[i], pool);
  }

  /** Appending a command only when absent keeps the de-duplicated list in step with appending it
      unconditionally. */
  lemma AppendAbsent(acc: seq<string>, all: seq<string>, x: string)
    requires Dedup(acc) == Dedup(all)
    ensures Dedup(if x in acc then acc else acc + [x]) == Dedup(all + [x])
  {
    DedupSnoc(all, x);
    DedupSnoc(acc, x);
    assert x in acc <==> x in Dedup(acc);
    assert x in all <==> x in Dedup(all);
  }

  /** The "Everyone" list of the help text: allowed commands that are not admin-only, disjoint
      from the admin list. */
  function PublicCommands(p: Policy, group: string): (r: seq<string>)
    ensures forall c :: c in r <==> IsCommandAllowed(p, group, c) && c !in AdminOnlyCommands(p, group)
    ensures forall c :: c in r ==> c !in AdminOnlyCommands(p, group)
    ensures WellFormed(p) ==> NoDup(r)
  {
    NotIn(AllowedCommands(p, group), AdminOnlyCommands(p, group))
  }

  /** server.js makes /tagall admin-only in every group; src/config.js leaves it open in the group
      that allows it without listing it as admin-only. */
  lemma TagAllAdminDiffers(group: string)
    ensures IsAdminRequired(MonolithicPolicy, group, "/tagall")
    ensures IsCommandAllowed(ModularPolicy, SablogGroup, "/tagall")
    ensures !IsAdminRequired(ModularPolicy, SablogGroup, "/tagall")
  {
  }

  /** A command a group lists as admin-only without allowing it (and that is not general)
      appears in the group's admin list although the group cannot run it. */
  lemma AdminOnlyNotAllowed(p: Policy, group: string, c: string)
    requires group in p.groups && c in p.groups[group].adminOnly
    requires c !in p.groups[group].allowed && c !in p.general
    ensures c in AdminOnlyCommands(p, group) && !IsCommandAllowed(p, group, c)
  {
  }

  /** The admin list is not a subset of the allowed list: the second configured group lists
      /reminder as admin-only without allowing it. */
  lemma AdminListNotWithinAllowed(v: Variant)
    ensures "/reminder" in AdminOnlyCommands(PolicyOf(v), KrishnaGroup)
    ensures !IsCommandAllowed(PolicyOf(v), KrishnaGroup, "/reminder")
  {
    var p := PolicyOf(v);
    assert p.groups[KrishnaGroup] == GroupConfig(["/tagall", "/meme", "/abuse", "/help"], ["/reminder"]);
    AdminOnlyNotAllowed(p, KrishnaGroup, "/reminder");
  }
}
