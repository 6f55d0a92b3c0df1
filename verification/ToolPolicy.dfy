/** Tool policy: a global allow/deny list, per-member overrides merged over it, and the manager that serves the
    merge from an in-memory snapshot of the stored rows. */
module ToolPolicy {
  import opened Lists
  import opened Options
  import Text

  // ---------- list algebra ----------

  method CleanList(xs: seq<string>) returns (out: seq<string>)
    ensures out == Cleaned(xs)
  {
    if |xs| == 0 {
      return [];
    }
    out := [];
    for i := 0 to |xs|
      invariant out == Cleaned(xs[..i])
    {
      assert xs[..i + 1][..i] == xs[..i];
      var v := Text.TrimSpace(xs[i]);
      if v != "" {
        out := out + [v];
      }
    }
    assert xs[..|xs|] == xs;
  }

  method UnionStrings(a: seq<string>, b: seq<string>) returns (out: seq<string>)
    ensures out == Union(a, b)
  {
    assert Distinct([]) == [];
    hide Distinct;
    if |a| == 0 {
      return b;
    }
    if |b| == 0 {
      return a;
    }
    out := [];
    var seen := {};
    var all := [a, b];
    ghost var walked := [];
    for l := 0 to 2
      invariant (forall v :: v in seen <==> v in out) && out == Distinct(walked)
      invariant walked == if l == 0 then [] else if l == 1 then a else a + b
    {
      out, seen := AppendNew(all[l], out, seen, walked);
      walked := walked + all[l];
    }
  }

  /** The inner loop: what has not been seen yet is appended. */
  method AppendNew(list: seq<string>, known: seq<string>, before: set<string>, ghost walked: seq<string>)
    returns (out: seq<string>, seen: set<string>)
    requires (forall v :: v in before <==> v in known) && known == Distinct(walked)
    ensures (forall v :: v in seen <==> v in out) && out == Distinct(walked + list)
  {
    hide Distinct;
    out, seen := known, before;
    assert walked + list[..0] == walked;
    for i := 0 to |list|
      invariant (forall v :: v in seen <==> v in out) && out == Distinct(walked + list[..i])
    {
      var v := list[i];
      DistinctGrows(walked + list[..i], v);
      assert walked + list[..i + 1] == walked + list[..i] + [v];
      if v !in seen {
        seen := seen + {v};
        out := out + [v];
      }
    }
    assert list[..|list|] == list;
  }

  /** The union drops repeats only when both lists have entries: with one empty list the other is copied as is. */
  function Union(a: seq<string>, b: seq<string>): (u: seq<string>)
    ensures forall v :: v in u <==> v in a || v in b
  {
    if a == [] then b else if b == [] then a else Distinct(a + b)
  }

  /** The promise of a union without repeats is kept exactly when both lists have entries or the lists together had
      no repeat to begin with. */
  lemma UnionDropsRepeats(a: seq<string>, b: seq<string>)
    ensures NoRepeats(Union(a, b)) <==> (a != [] && b != []) || NoRepeats(a + b)
  {
    assert a == [] ==> a + b == b;
    assert b == [] ==> a + b == a;
    DistinctHasNoRepeats(a + b);
  }

  /** A repeated entry, as cleaning leaves it, survives the union with an empty list. */
  lemma UnionKeepsRepeats()
    ensures Cleaned(["x", "x"]) == ["x", "x"]
    ensures Union(["x", "x"], []) == Union([], ["x", "x"]) == ["x", "x"] && !NoRepeats(["x", "x"])
  {
    var one := ["x"];
    assert !Text.IsSpace("x"[0]) && Text.TrimLeft("x") == "x" && Text.TrimRight("x") == "x";
    assert Text.TrimSpace("x") == "x";
    assert one[..0] == [] && ["x", "x"][..1] == one;
    assert Cleaned(one) == Cleaned([]) + ["x"];
    var two := ["x", "x"];
    assert two[0] == two[1];
  }

  /** The entries of a that are in b. */
  function Keep(a: seq<string>, b: seq<string>): seq<string> { Among(a, set v | v in b) }

  /** Entries of both lists, once each, in the order of the first. */
  function Intersection(a: seq<string>, b: seq<string>): (r: seq<string>)
    ensures forall v :: v in r <==> v in a && v in b
  {
    Distinct(Keep(a, b))
  }

  lemma KeepGrows(a: seq<string>, b: seq<string>, i: nat)
    requires i < |a|
    ensures Distinct(Keep(a[..i + 1], b)) ==
            var d := Distinct(Keep(a[..i], b)); if a[i] in b && a[i] !in d then d + [a[i]] else d
  {
    AmongGrows(a, i, set v | v in b);
    DistinctGrows(Keep(a[..i], b), a[i]);
    assert Keep(a[..i], b) + [] == Keep(a[..i], b);
    hide Distinct, Among;
  }

  lemma EmptyIntersection(a: seq<string>, b: seq<string>)
    ensures Intersection(a, b) == [] <==> forall v | v in a :: v !in b
  {
    if Intersection(a, b) != [] {
      assert Intersection(a, b)[0] in Intersection(a, b);
    }
  }

  method IntersectStrings(a: seq<string>, b: seq<string>) returns (out: seq<string>)
    ensures out == Intersection(a, b)
  {
    EmptyIntersection(a, b);
    if |a| == 0 || |b| == 0 {
      return [];
    }
    hide Distinct, Keep, Among;
    var inB := set v | v in b;
    out := [];
    var seen := {};
    assert out == Distinct(Keep(a[..0], b)) by {
      EmptyIntersection([], b);
      assert a[..0] == [];
    }
    for i := 0 to |a|
      invariant (forall v :: v in seen <==> v in out) && out == Distinct(Keep(a[..i], b))
    {
      KeepGrows(a, b, i);
      var v := a[i];
      if v !in inB {
        continue;
      }
      if v in seen {
        continue;
      }
      seen := seen + {v};
      out := out + [v];
    }
    assert a[..|a|] == a;
  }

  // ---------- policies ----------

  datatype Settings = Settings(mode: string, enabled: seq<string>, disabled: seq<string>)

  datatype MemberPolicy = MemberPolicy(enabled: seq<string>, disabled: seq<string>) {
    predicate IsEmpty() { enabled == [] && disabled == [] }
  }

  const DEFAULT: Settings := Settings("cached", [], [])

  function NormMode(mode: string): string {
    if Text.TrimSpace(mode) == "realtime" then "realtime" else "cached"
  }

  function NormSettings(s: Settings): Settings {
    Settings(NormMode(s.mode), Cleaned(s.enabled), Cleaned(s.disabled))
  }

  function NormMember(p: MemberPolicy): MemberPolicy {
    MemberPolicy(Cleaned(p.enabled), Cleaned(p.disabled))
  }

  /** A mode is "realtime" exactly if that word is all it holds between white space, and "cached" in every other case. */
  lemma ModeReads(mode: string)
    ensures NormMode(mode) == "realtime" || NormMode(mode) == "cached"
    ensures NormMode(mode) == "realtime" <==>
            exists pre, post :: Text.AllSpace(pre) && Text.AllSpace(post) && mode == pre + "realtime" + post
  {
    hide Text.TrimSpace, Text.AllSpace;
    var pre, post := Text.TrimSpaceTakesEnds(mode);
    if p, q :| Text.AllSpace(p) && Text.AllSpace(q) && mode == p + "realtime" + q {
      var word := "realtime";
      assert !Text.IsSpace(word[0]) && !Text.IsSpace(word[7]);
      Text.TrimSpaceFindsCore(p, "realtime", q);
    }
  }

  /** Cleaning before the save and again after the load does no harm. */
  lemma NormalizingIsStable(s: Settings, p: MemberPolicy)
    ensures NormSettings(NormSettings(s)) == NormSettings(s) && NormMember(NormMember(p)) == NormMember(p)
  {
    CleanedIsStable(s.enabled);
    CleanedIsStable(s.disabled);
    CleanedIsStable(p.enabled);
    CleanedIsStable(p.disabled);
    var r := "realtime";
    assert !Text.IsSpace(r[0]) && !Text.IsSpace(r[7]);
    assert Text.TrimLeft(r) == r && Text.TrimRight(r) == r;
    assert Text.TrimSpace("realtime") == "realtime";
    var c := "cached";
    assert !Text.IsSpace(c[0]) && !Text.IsSpace(c[5]);
    assert Text.TrimLeft(c) == c && Text.TrimRight(c) == c;
    assert Text.TrimSpace("cached") == "cached" != "realtime";
  }

  method NormalizeSettings(s: Settings) returns (n: Settings)
    ensures n == NormSettings(s)
  {
    var enabled := CleanList(s.enabled);
    var disabled := CleanList(s.disabled);
    n := Settings(NormMode(s.mode), enabled, disabled);
  }

  method NormalizeMember(p: MemberPolicy) returns (n: MemberPolicy)
    ensures n == NormMember(p)
  {
    var enabled := CleanList(p.enabled);
    var disabled := CleanList(p.disabled);
    n := MemberPolicy(enabled, disabled);
  }

  /** The merge: deny lists add up; of the allow lists a lone one counts, two are intersected. */
  function Effective(global: Settings, member: Option<MemberPolicy>): Settings {
    if member.None? || member.value.IsEmpty() then Settings(NormMode(global.mode), global.enabled, global.disabled)
    else
      var m := member.value;
      Settings(NormMode(global.mode),
               if global.enabled == [] then m.enabled
               else if m.enabled == [] then global.enabled
               else Intersection(global.enabled, m.enabled),
               Union(global.disabled, m.disabled))
  }

  method ResolveEffective(global: Settings, member: Option<MemberPolicy>) returns (e: Settings)
    ensures e == Effective(global, member)
  {
    var mode := NormMode(global.mode);
    if member.None? || member.value.IsEmpty() {
      return Settings(mode, global.enabled, global.disabled);
    }
    var m := member.value;
    var disabled := UnionStrings(global.disabled, m.disabled);
    var enabled: seq<string>;
    if |global.enabled| == 0 && |m.enabled| == 0 {
      enabled := [];
    } else if |global.enabled| == 0 {
      enabled := m.enabled;
    } else if |m.enabled| == 0 {
      enabled := global.enabled;
    } else {
      enabled := IntersectStrings(global.enabled, m.enabled);
    }
    return Settings(mode, enabled, disabled);
  }

  /** A tool passes a pair of lists: not denied, and allowed if there is an allow list at all. */
  predicate Allowed(enabled: seq<string>, disabled: seq<string>, tool: string) {
    tool !in disabled && (enabled == [] || tool in enabled)
  }

  datatype Verdict = Granted | Blocked | NotInAllowlist

  method Authorize(enabled: seq<string>, disabled: seq<string>, tool: string) returns (v: Verdict)
    ensures v == Granted <==> Allowed(enabled, disabled, tool)
    ensures v == Blocked <==> tool in disabled
  {
    for i := 0 to |disabled|
      invariant tool !in disabled[..i]
    {
      if disabled[i] == tool {
        return Blocked;
      }
    }
    assert disabled[..|disabled|] == disabled;
    if |enabled| == 0 {
      return Granted;
    }
    for i := 0 to |enabled|
      invariant tool !in enabled[..i]
    {
      if enabled[i] == tool {
        return Granted;
      }
    }
    assert enabled[..|enabled|] == enabled;
    return NotInAllowlist;
  }

  /** The one case the merge gets wrong: two allow lists with nothing in common, whose empty intersection reads as
      "no allow list". */
  predicate Clash(global: Settings, m: MemberPolicy) {
    global.enabled != [] && m.enabled != [] && forall v | v in global.enabled :: v !in m.enabled
  }

  predicate AllowedByBoth(global: Settings, m: MemberPolicy, tool: string) {
    Allowed(global.enabled, global.disabled, tool) && Allowed(m.enabled, m.disabled, tool)
  }

  predicate AllowedByMerge(global: Settings, m: MemberPolicy, tool: string) {
    var e := Effective(global, Some(m)); Allowed(e.enabled, e.disabled, tool)
  }

  /** The member override can only tighten the global policy, and exactly by its own lists, unless the two allow
      lists clash; then no tool passes both and yet the merge lets every tool through that neither denies. */
  lemma MergeOfOneTool(global: Settings, m: MemberPolicy, tool: string)
    ensures !Clash(global, m) ==> (AllowedByMerge(global, m, tool) <==> AllowedByBoth(global, m, tool))
    ensures Clash(global, m) ==> !AllowedByBoth(global, m, tool)
    ensures Clash(global, m) ==> (AllowedByMerge(global, m, tool) <==> tool !in global.disabled && tool !in m.disabled)
  {
    EmptyIntersection(global.enabled, m.enabled);
    hide Intersection, Union;
  }

  /** For instance: where only "read" is allowed globally and only "write" to the member, "delete" passes the merge. */
  lemma ClashOpensUp()
    ensures var (g, m) := (Settings("cached", ["read"], []), MemberPolicy(["write"], []));
            AllowedByMerge(g, m, "delete") && !AllowedByBoth(g, m, "delete")
  {
    var (g, m) := (Settings("cached", ["read"], []), MemberPolicy(["write"], []));
    assert "read" != "write" && Clash(g, m);
    MergeOfOneTool(g, m, "delete");
  }

  /** The merge is the conjunction of the two policies exactly when the allow lists do not clash. */
  lemma MergeIsConjunction(global: Settings, m: MemberPolicy)
    ensures (forall tool :: AllowedByMerge(global, m, tool) <==> AllowedByBoth(global, m, tool)) <==> !Clash(global, m)
  {
    if Clash(global, m) {
      var tool := Unlisted(global.disabled + m.disabled);
      assert tool !in global.disabled && tool !in m.disabled;
      MergeOfOneTool(global, m, tool);
    } else {
      forall tool ensures AllowedByMerge(global, m, tool) <==> AllowedByBoth(global, m, tool) {
        MergeOfOneTool(global, m, tool);
      }
    }
  }

  /** Some name stands in no given list: one longer than all of it. */
  function Unlisted(xs: seq<string>): (name: string)
    ensures name !in xs
  {
    var name := LongerThan(xs);
    assert forall v | v in xs :: |v| < |name|;
    name
  }

  function LongerThan(xs: seq<string>): (name: string)
    ensures forall v | v in xs :: |v| < |name|
  {
    if xs == [] then ""
    else
      assert xs == [xs[0]] + xs[1..];
      LongerThan(xs[1..]) + xs[0] + "x"
  }

  // ---------- the manager ----------

  /** The merge of what is stored: the settings row (or the default) and the member's row, cleaned. */
  function MergeOfRows(stored: Option<Settings>, rows: map<string, MemberPolicy>, id: string): Settings {
    Effective(NormSettings(if stored.Some? then stored.value else DEFAULT),
              if id in rows then Some(NormMember(rows[id])) else None)
  }

  function NonEmptyRows(rows: map<string, MemberPolicy>): map<string, MemberPolicy> {
    map id | id in rows && !NormMember(rows[id]).IsEmpty() :: NormMember(rows[id])
  }

  /** With nothing stored no tool is restricted, and the mode is "cached". */
  lemma DefaultIsCached(rows: map<string, MemberPolicy>, id: string)
    requires id !in rows
    ensures MergeOfRows(None, rows, id) == Settings("cached", [], [])
  {
    assert Cleaned([]) == [];
    var pre, post := Text.TrimSpaceTakesEnds("cached");
    hide Text.TrimSpace;
    assert |"realtime"| > |"cached"|;
  }

  /** A row that is empty after cleaning merges like no row, so dropping it from the snapshot changes nothing. */
  lemma SnapshotServesRows(stored: Option<Settings>, rows: map<string, MemberPolicy>)
    ensures forall id: string :: MergeOfRows(stored, rows, id) ==
              Effective(NormSettings(if stored.Some? then stored.value else DEFAULT),
                        if id in NonEmptyRows(rows) then Some(NonEmptyRows(rows)[id]) else None)
  {
    hide NormSettings, NormMember;
  }

  /** The snapshot's overrides: every row cleaned, the empty ones left out. */
  method LoadMembers(rows: map<string, MemberPolicy>) returns (byId: map<string, MemberPolicy>)
    ensures byId == NonEmptyRows(rows)
  {
    hide NormMember;
    byId := map[];
    var rest := rows.Keys;
    while rest != {}
      invariant rest <= rows.Keys
      invariant forall id :: id in byId <==> id in rows && id !in rest && !NormMember(rows[id]).IsEmpty()
      invariant forall id | id in byId :: byId[id] == NormMember(rows[id])
      decreases rest
    {
      var id :| id in rest;
      rest := rest - {id};
      var p := NormalizeMember(rows[id]);
      if !p.IsEmpty() {
        byId := byId[id := p];
      }
    }
  }

  class Manager {
    /** The two tables. */
    var stored: Option<Settings>
    var rows: map<string, MemberPolicy>
    /** The snapshot. */
    var cur: Option<Settings>
    var members: map<string, MemberPolicy>

    /** What EffectivePolicy answers from the snapshot. */
    function Served(id: string): Settings
      reads this
    {
      Effective(if cur.Some? then cur.value else DEFAULT, if id in members then Some(members[id]) else None)
    }

    /** Every member is served the merge of the stored rows. */
    ghost predicate Coherent()
      reads this
    {
      forall id: string :: Served(id) == MergeOfRows(stored, rows, id)
    }

    /** Two reads, one after the other; each may fail, and a failure of the second leaves the first one's
        snapshot in place. */
    method Reload(getFails: bool, allFails: bool) returns (ok: bool)
      modifies this`cur, this`members
      ensures ok <==> !getFails && !allFails
      ensures getFails ==> cur == old(cur)
      ensures !getFails ==> cur == Some(NormSettings(if stored.Some? then stored.value else DEFAULT))
      ensures !ok ==> members == old(members)
      ensures ok ==> Coherent() && cur.Some?
    {
      if getFails {
        return false;
      }
      var settings := NormalizeSettings(if stored.Some? then stored.value else DEFAULT);
      cur := Some(settings);
      if allFails {
        return false;
      }
      SnapshotServesRows(stored, rows);
      hide NormMember, NormSettings, Effective, MergeOfRows;
      members := LoadMembers(rows);
      return true;
    }

    /** A successful update makes the snapshot coherent whatever it was before, and a failed save changes nothing. */
    method UpdateSettings(admin: bool, s: Settings, saveFails: bool, getFails: bool, allFails: bool) returns (ok: bool)
      modifies this
      ensures ok <==> admin && !saveFails && !getFails && !allFails
      ensures rows == old(rows)
      ensures !admin || saveFails ==> unchanged(this)
      ensures admin && !saveFails ==> stored == Some(NormSettings(s))
      ensures admin && !saveFails ==> cur == (if getFails then old(cur) else Some(NormSettings(s)))
      ensures !ok ==> members == old(members)
      ensures ok ==> Coherent()
      ensures ok ==> forall id | id !in rows :: Served(id) == NormSettings(s)
    {
      if !admin || saveFails {
        return false;
      }
      var settings := NormalizeSettings(s);
      stored := Some(settings);
      NormalizingIsStable(s, MemberPolicy([], []));
      ok := Reload(getFails, allFails);
    }

    /** An override that is empty after cleaning removes the member's row. */
    method UpdateMemberPolicy(admin: bool, id: string, p: MemberPolicy, saveFails: bool, getFails: bool, allFails: bool)
      returns (ok: bool)
      modifies this
      ensures ok <==> admin && !saveFails && !getFails && !allFails
      ensures stored == old(stored)
      ensures !admin || saveFails ==> unchanged(this)
      ensures admin && !saveFails ==>
                rows == if NormMember(p).IsEmpty() then old(rows) - {id} else old(rows)[id := NormMember(p)]
      ensures getFails || !admin || saveFails ==> cur == old(cur)
      ensures admin && !saveFails && !getFails ==> cur == Some(NormSettings(if stored.Some? then stored.value else DEFAULT))
      ensures !ok ==> members == old(members)
      ensures ok ==> Coherent()
      ensures ok ==> forall other | other != id ::
                       Served(other) == MergeOfRows(stored, old(rows), other)
    {
      if !admin || saveFails {
        return false;
      }
      var policy := NormalizeMember(p);
      if policy.IsEmpty() {
        rows := rows - {id};
      } else {
        rows := rows[id := policy];
      }
      ok := Reload(getFails, allFails);
    }
  }
}
