/** Merging required entries into the editor's config file (internal/bootstrap/checks.go). */
module ConfigMerge {
  import opened Text

  datatype Json = Null | Bool(b: bool) | Number(n: real) | Str(s: string) | List(items: seq<Json>) | Obj(fields: map<string, Json>)

  type Object = map<string, Json>

  const SCHEMA_KEY := "$schema"
  const SCHEMA := "https://opencode.ai/config.json"
  const INDEX := ".starfleet-ai/var/sop.d/index.md"
  const STALE := [".starfleet-ai/agents.d/index.md", ".starfleet-ai/var/agents.d/index.md"]
  const COMMANDS := ["comms", "dashboard", "logs", "reports", "session", "task"]

  // ---------- what the merge is to produce ----------

  predicate IsStale(e: Json) {
    e.Str? && e.s in STALE
  }

  /** The entries that are not stale, in their order. */
  function Kept(list: seq<Json>): seq<Json>
    decreases |list|
  {
    if list == [] then []
    else Kept(list[..|list| - 1]) + if IsStale(list[|list| - 1]) then [] else [list[|list| - 1]]
  }

  function Instructions(list: seq<Json>): seq<Json> {
    Kept(list) + if Str(INDEX) in list then [] else [Str(INDEX)]
  }

  function Rules(commands: seq<string>): Object
    decreases |commands|
  {
    if commands == [] then map[]
    else
      var v := commands[|commands| - 1];
      Rules(commands[..|commands| - 1])["starfleetctl " + v + "*" := Str("allow")]
      [".starfleet-ai/bin/starfleetctl " + v + "*" := Str("allow")]
  }

  /** The object under a key: a missing one, or a value that is no object, counts as empty. */
  function ObjectAt(o: Object, key: string): Object {
    if key in o && o[key].Obj? then o[key].fields else map[]
  }

  function ListAt(o: Object, key: string): seq<Json> {
    if key in o && o[key].List? then o[key].items else []
  }

  /** The rules are added under what is there: an existing value wins. */
  function Permission(o: Object, rules: Object): Object {
    o["bash" := Obj(rules + ObjectAt(o, "bash"))]
  }

  function Plan(o: Object, rules: Object): Object {
    o["permission" := Obj(Permission(ObjectAt(o, "permission"), rules))]
  }

  function Agent(o: Object, rules: Object): Object {
    o["plan" := Obj(Plan(ObjectAt(o, "plan"), rules))]
  }

  function Merged(doc: Object): Object {
    (if SCHEMA_KEY in doc then doc else doc[SCHEMA_KEY := Str(SCHEMA)])
    ["instructions" := List(Instructions(ListAt(doc, "instructions")))]
    ["agent" := Obj(Agent(ObjectAt(doc, "agent"), Rules(COMMANDS)))]
  }

  // ---------- the repair in place ----------

  /** opencodePlanPermissionRules */
  method PlanPermissionRules() returns (rules: Object)
    ensures rules == Rules(COMMANDS)
  {
    rules := map[];
    for i := 0 to |COMMANDS|
      invariant rules == Rules(COMMANDS[..i])
    {
      var v := COMMANDS[i];
      assert COMMANDS[..i + 1][..i] == COMMANDS[..i];
      rules := rules["starfleetctl " + v + "*" := Str("allow")];
      rules := rules[".starfleet-ai/bin/starfleetctl " + v + "*" := Str("allow")];
    }
    assert COMMANDS[..|COMMANDS|] == COMMANDS;
  }

  /** stringInSlice */
  method StringInSlice(s: string, list: seq<string>) returns (found: bool)
    ensures found <==> s in list
  {
    for i := 0 to |list|
      invariant s !in list[..i]
    {
      if list[i] == s {
        return true;
      }
    }
    return false;
  }

  /** The filter of the instructions, in the slice's own array: the entries that are kept move
      down over the ones that are dropped. */
  method FilterInstructions(slots: array<Json>) returns (k: nat, hasIndex: bool, changed: bool)
    modifies slots
    ensures k <= slots.Length && slots[..k] == Kept(old(slots[..]))
    ensures hasIndex <==> Str(INDEX) in old(slots[..])
    ensures changed <==> k < slots.Length
  {
    ghost var entries := slots[..];
    k, hasIndex, changed := 0, false, false;
    for i := 0 to slots.Length
      invariant k <= i && slots[..k] == Kept(entries[..i])
      invariant forall j :: i <= j < slots.Length ==> slots[j] == entries[j]
      invariant hasIndex <==> Str(INDEX) in entries[..i]
      invariant changed <==> k < i
    {
      KeptStep(entries, i);
      var entry := slots[i];
      if entry.Str? {
        if entry.s == INDEX {
          hasIndex := true;
        } else {
          var stale := StringInSlice(entry.s, STALE);
          if stale {
            changed := true;
            continue;
          }
        }
      }
      slots[k] := entry;
      k := k + 1;
    }
    assert entries[..slots.Length] == entries;
  }

  lemma KeptStep(entries: seq<Json>, i: nat)
    requires i < |entries|
    ensures Kept(entries[..i + 1]) == Kept(entries[..i]) + if IsStale(entries[i]) then [] else [entries[i]]
    ensures Str(INDEX) in entries[..i + 1] <==> Str(INDEX) in entries[..i] || entries[i] == Str(INDEX)
    ensures INDEX !in STALE
  {
    assert entries[..i + 1][..i] == entries[..i] && entries[..i + 1] == entries[..i] + [entries[i]];
  }

  method RegisterIndex(instructions: seq<Json>) returns (keep: seq<Json>, changed: bool)
    ensures keep == Instructions(instructions)
    ensures changed <==> keep != instructions
    ensures changed || keep != []
  {
    var slots := new Json[|instructions|](i requires 0 <= i < |instructions| => instructions[i]);
    assert slots[..] == instructions;
    var k, hasIndex, dropped := FilterInstructions(slots);
    keep, changed := slots[..k], dropped;
    if !hasIndex {
      keep := keep + [Str(INDEX)];
      changed := true;
    }
    InstructionsChange(instructions);
  }

  /** The list comes out different exactly when an entry was dropped or the index was missing. */
  lemma InstructionsChange(list: seq<Json>)
    ensures Instructions(list) == list <==> |Kept(list)| == |list| && Str(INDEX) in list
    ensures Instructions(list) != []
  {
    KeptLength(list);
    if Str(INDEX) in list {
      KeptIndex(list);
      assert Kept(list) + [] == Kept(list);
    } else {
      var out := Instructions(list);
      assert out[|out| - 1] == Str(INDEX);
    }
  }

  lemma {:induction false} KeptIndex(list: seq<Json>)
    requires Str(INDEX) in list
    ensures Str(INDEX) in Kept(list)
    decreases |list|
  {
    var n := |list| - 1;
    assert list == list[..n] + [list[n]];
    KeptStep(list, n);
    if list[n] != Str(INDEX) {
      KeptIndex(list[..n]);
    }
  }

  /** The rules that are missing, in whatever order the map is walked. */
  method AddRules(bash: Object, rules: Object) returns (out: Object, changed: bool)
    ensures out == rules + bash
    ensures changed <==> out != bash
  {
    out, changed := bash, false;
    var pending := rules.Keys;
    while pending != {}
      invariant pending <= rules.Keys
      invariant out.Keys == bash.Keys + (rules.Keys - pending)
      invariant forall p :: p in out ==> out[p] == if p in bash then bash[p] else rules[p]
      invariant changed <==> out != bash
      decreases |pending|
    {
      var pattern :| pattern in pending;
      pending := pending - {pattern};
      if pattern !in out {
        out := out[pattern := rules[pattern]];
        changed := true;
      }
    }
  }

  class Config {
    var doc: Object

    constructor (d: Object)
      ensures doc == d
    {
      doc := d;
    }

    /** ensureOpencodePlanAccess: the document becomes the merged one, and the result says whether
        that changed it. */
    method EnsurePlanAccess() returns (changed: bool)
      modifies this
      ensures doc == Merged(old(doc))
      ensures changed <==> doc != old(doc)
    {
      ghost var was := doc;
      changed := false;
      if SCHEMA_KEY !in doc {
        doc := doc[SCHEMA_KEY := Str(SCHEMA)];
        changed := true;
      }
      ghost var withSchema := doc;
      var registered := EnsureInstructions();
      changed := changed || registered;
      ghost var withIndex := doc;
      var allowed := EnsureRules();
      changed := changed || allowed;
      StepsTouchTheirOwnKeys(was, withSchema, withIndex, doc, withIndex["instructions"], doc["agent"]);
    }

    method EnsureInstructions() returns (changed: bool)
      modifies this
      ensures doc == old(doc)["instructions" := List(Instructions(ListAt(old(doc), "instructions")))]
      ensures changed <==> doc != old(doc)
    {
      var keep;
      keep, changed := RegisterIndex(ListAt(doc, "instructions"));
      doc := doc["instructions" := List(keep)];
    }

    /** The path agent.plan.permission.bash, made of objects from the top. */
    method EnsureRules() returns (changed: bool)
      modifies this
      ensures doc == old(doc)["agent" := Obj(Agent(ObjectAt(old(doc), "agent"), Rules(COMMANDS)))]
      ensures changed <==> doc != old(doc)
    {
      changed := false;
      var agent, plan, permission, bash;
      if "agent" in doc && doc["agent"].Obj? {
        agent := doc["agent"].fields;
      } else {
        agent, changed := map[], true;
      }
      if "plan" in agent && agent["plan"].Obj? {
        plan := agent["plan"].fields;
      } else {
        plan, changed := map[], true;
      }
      if "permission" in plan && plan["permission"].Obj? {
        permission := plan["permission"].fields;
      } else {
        permission, changed := map[], true;
      }
      if "bash" in permission && permission["bash"].Obj? {
        bash := permission["bash"].fields;
      } else {
        bash, changed := map[], true;
      }
      var rules := PlanPermissionRules();
      var added;
      bash, added := AddRules(bash, rules);
      changed := changed || added;
      SetIsChange(permission, "bash", bash);
      SetIsChange(plan, "permission", permission["bash" := Obj(bash)]);
      SetIsChange(agent, "plan", plan["permission" := Obj(permission["bash" := Obj(bash)])]);
      SetIsChange(doc, "agent", agent["plan" := Obj(plan["permission" := Obj(permission["bash" := Obj(bash)])])]);
      permission := permission["bash" := Obj(bash)];
      plan := plan["permission" := Obj(permission)];
      agent := agent["plan" := Obj(plan)];
      doc := doc["agent" := Obj(agent)];
    }
  }

  lemma {:induction false} KeptLength(list: seq<Json>)
    ensures |Kept(list)| <= |list| && (|Kept(list)| == |list| ==> Kept(list) == list)
    decreases |list|
  {
    if list != [] {
      KeptLength(list[..|list| - 1]);
      assert list == list[..|list| - 1] + [list[|list| - 1]];
    }
  }

  lemma SetIsChange(o: Object, key: string, inner: Object)
    ensures o[key := Obj(inner)] == o <==> key in o && o[key] == Obj(inner)
  {
  }

  /** The three repairs set three different keys, so none of them undoes another. */
  lemma StepsTouchTheirOwnKeys(was: Object, withSchema: Object, withIndex: Object, out: Object, index: Json, agent: Json)
    requires withSchema == if SCHEMA_KEY in was then was else was[SCHEMA_KEY := Str(SCHEMA)]
    requires withIndex == withSchema["instructions" := index]
    requires out == withIndex["agent" := agent]
    ensures out == was <==> withSchema == was && withIndex == withSchema && out == withIndex
    ensures ObjectAt(withIndex, "agent") == ObjectAt(was, "agent") && ListAt(withSchema, "instructions") == ListAt(was, "instructions")
  {
    if withSchema != was {
      assert SCHEMA_KEY in out;
    } else if withIndex != withSchema {
      assert out["instructions"] == withIndex["instructions"];
      assert "instructions" in was ==> withIndex["instructions"] != was["instructions"];
    }
  }

  // ---------- verify and fix ----------

  /** What is on disk: bytes that are no JSON object, or an object. */
  datatype File = Missing | Unreadable | Holds(doc: Object)

  class Workspace {
    var file: File

    constructor (f: File)
      ensures file == f
    {
      file := f;
    }

    /** verifyOpencodePlanAccess: probes a copy of the document. */
    method Verify() returns (ok: bool)
      ensures ok <==> file.Holds? && Satisfied(file.doc)
    {
      if !file.Holds? {
        return false;
      }
      var probe := new Config(file.doc);
      var changed := probe.EnsurePlanAccess();
      SatisfiedIff(file.doc);
      ok := !changed;
    }

    /** fixOpencodePlanAccess: afterwards the file verifies, whatever it held before, and a file
        that verified before is left alone. */
    method Fix()
      modifies this
      ensures file == Holds(Merged(if old(file).Holds? then old(file).doc else map[]))
      ensures file.Holds? && Satisfied(file.doc)
      ensures old(file).Holds? && Satisfied(old(file).doc) ==> file == old(file)
    {
      var doc: Object := if file.Holds? then file.doc else map[];
      var config := new Config(doc);
      var changed := config.EnsurePlanAccess();
      SatisfiedIff(doc);
      MergeIsFixpoint(doc);
      SatisfiedIff(Merged(doc));
      if changed {
        file := Holds(config.doc);
      } else {
        EmptyIsNotSatisfied();
      }
    }
  }

  /** What the merge is after, said without it: a schema, a list of instructions with the index and
      nothing stale, and a rule of some kind for every required pattern. */
  ghost predicate Satisfied(doc: Object) {
    && SCHEMA_KEY in doc
    && "instructions" in doc && doc["instructions"].List?
    && Str(INDEX) in doc["instructions"].items && (forall e :: e in doc["instructions"].items ==> !IsStale(e))
    && HasObject(doc, "agent") && HasObject(ObjectAt(doc, "agent"), "plan")
    && HasObject(ObjectAt(ObjectAt(doc, "agent"), "plan"), "permission")
    && HasObject(ObjectAt(ObjectAt(ObjectAt(doc, "agent"), "plan"), "permission"), "bash")
    && forall p :: Required(p) ==> p in BashRules(doc)
  }

  predicate HasObject(o: Object, key: string) {
    key in o && o[key].Obj?
  }

  function BashRules(doc: Object): Object {
    ObjectAt(ObjectAt(ObjectAt(ObjectAt(doc, "agent"), "plan"), "permission"), "bash")
  }

  /** The patterns: each command, called by name and by its path in the workspace. */
  ghost predicate Required(p: string) {
    exists v :: v in COMMANDS && IsPattern(v, p)
  }

  predicate IsPattern(v: string, p: string) {
    p == "starfleetctl " + v + "*" || p == ".starfleet-ai/bin/starfleetctl " + v + "*"
  }

  lemma {:induction false} RulesAreRequired(commands: seq<string>, p: string)
    ensures p in Rules(commands) <==> exists v :: v in commands && IsPattern(v, p)
    ensures p in Rules(commands) ==> Rules(commands)[p] == Str("allow")
    decreases |commands|
  {
    if commands != [] {
      var n := |commands| - 1;
      assert commands == commands[..n] + [commands[n]];
      RulesAreRequired(commands[..n], p);
      if IsPattern(commands[n], p) {
        assert commands[n] in commands;
      }
    }
  }

  // ---------- the properties ----------

  lemma {:induction false} KeptHasNoStale(list: seq<Json>)
    ensures forall e :: e in Kept(list) <==> e in list && !IsStale(e)
    decreases |list|
  {
    if list != [] {
      assert list == list[..|list| - 1] + [list[|list| - 1]];
      KeptHasNoStale(list[..|list| - 1]);
    }
  }

  lemma {:induction false} KeptOfClean(list: seq<Json>)
    requires forall e :: e in list ==> !IsStale(e)
    ensures Kept(list) == list
    decreases |list|
  {
    if list != [] {
      assert list == list[..|list| - 1] + [list[|list| - 1]];
      KeptOfClean(list[..|list| - 1]);
    }
  }

  /** The list comes out as it went in exactly when it has the index and nothing stale. */
  lemma InstructionsFixedIff(list: seq<Json>)
    ensures Instructions(list) == list <==> Str(INDEX) in list && forall e :: e in list ==> !IsStale(e)
  {
    InstructionsChange(list);
    KeptLength(list);
    KeptHasNoStale(list);
    if forall e :: e in list ==> !IsStale(e) {
      KeptOfClean(list);
    }
  }

  lemma InstructionsTwice(list: seq<Json>)
    ensures Instructions(Instructions(list)) == Instructions(list)
  {
    KeptHasNoStale(list);
    var out := Instructions(list);
    if Str(INDEX) in list {
      KeptIndex(list);
    } else {
      assert out[|out| - 1] == Str(INDEX);
    }
    InstructionsFixedIff(out);
  }

  /** Merging twice is merging once, for every document whatever. */
  lemma MergeIsFixpoint(doc: Object)
    ensures Merged(Merged(doc)) == Merged(doc)
  {
    InstructionsTwice(ListAt(doc, "instructions"));
    AgentTwice(ObjectAt(doc, "agent"), Rules(COMMANDS));
    var out := Merged(doc);
    assert ListAt(out, "instructions") == Instructions(ListAt(doc, "instructions"));
    assert ObjectAt(out, "agent") == Agent(ObjectAt(doc, "agent"), Rules(COMMANDS));
    MergedIsSame(out);
  }

  lemma AgentTwice(agent: Object, rules: Object)
    ensures Agent(Agent(agent, rules), rules) == Agent(agent, rules)
  {
    var plan := ObjectAt(agent, "plan");
    var permission := ObjectAt(plan, "permission");
    var bash := ObjectAt(permission, "bash");
    assert rules + (rules + bash) == rules + bash;
    assert Permission(Permission(permission, rules), rules) == Permission(permission, rules);
    assert Plan(Plan(plan, rules), rules) == Plan(plan, rules);
  }

  /** The merge leaves a document alone exactly when it already has what is required. */
  lemma SatisfiedIff(doc: Object)
    ensures Merged(doc) == doc <==> Satisfied(doc)
  {
    var rules := Rules(COMMANDS);
    InstructionsFixedIff(ListAt(doc, "instructions"));
    forall p ensures p in rules <==> Required(p) {
      RulesAreRequired(COMMANDS, p);
    }
    AgentFixedIff(ObjectAt(doc, "agent"), rules);
    SetIsChange(doc, "agent", Agent(ObjectAt(doc, "agent"), rules));
    MergedIsSame(doc);
  }

  lemma MergedIsSame(doc: Object)
    ensures Merged(doc) == doc <==>
              && SCHEMA_KEY in doc
              && "instructions" in doc && doc["instructions"] == List(Instructions(ListAt(doc, "instructions")))
              && "agent" in doc && doc["agent"] == Obj(Agent(ObjectAt(doc, "agent"), Rules(COMMANDS)))
  {
    var out := Merged(doc);
    assert SCHEMA_KEY in out && out["instructions"] == List(Instructions(ListAt(doc, "instructions")));
    assert out["agent"] == Obj(Agent(ObjectAt(doc, "agent"), Rules(COMMANDS)));
  }

  lemma AgentFixedIff(agent: Object, rules: Object)
    ensures Agent(agent, rules) == agent <==>
              && HasObject(agent, "plan") && HasObject(ObjectAt(agent, "plan"), "permission")
              && HasObject(ObjectAt(ObjectAt(agent, "plan"), "permission"), "bash")
              && forall p :: p in rules ==> p in ObjectAt(ObjectAt(ObjectAt(agent, "plan"), "permission"), "bash")
  {
    var plan := ObjectAt(agent, "plan");
    var permission := ObjectAt(plan, "permission");
    var bash := ObjectAt(permission, "bash");
    SetIsChange(agent, "plan", Plan(plan, rules));
    SetIsChange(plan, "permission", Permission(permission, rules));
    SetIsChange(permission, "bash", rules + bash);
    assert rules + bash == bash <==> forall p :: p in rules ==> p in bash;
  }

  lemma EmptyIsNotSatisfied()
    ensures !Satisfied(map[])
  {
  }

  // ---------- nothing of the user's is lost ----------

  /** b holds everything that a holds: the same value, or an object with everything under its keys
      and perhaps more keys. */
  ghost predicate Extends(a: Json, b: Json)
    decreases a
  {
    || a == b
    || (a.Obj? && b.Obj? && forall k :: k in a.fields ==> k in b.fields && Extends(a.fields[k], b.fields[k]))
  }

  /** Everything is still there, except stale instructions. */
  ghost predicate Preserves(doc: Object, out: Object) {
    forall k :: k in doc ==>
      && k in out
      && (if k == "instructions" then doc[k].List? && out[k].List? && Kept(doc[k].items) <= out[k].items
          else Extends(doc[k], out[k]))
  }

  predicate MissingOrObject(o: Object, key: string) {
    key !in o || o[key].Obj?
  }

  lemma SetExtends(o: Object, key: string, v: Json)
    ensures Extends(Obj(o), Obj(o[key := v])) <==> key !in o || Extends(o[key], v)
  {
    var out := o[key := v];
    assert forall k :: k in o && k != key ==> out[k] == o[k];
    if key in o && Obj(o) == Obj(out) {
      assert o[key] == out[key];
    }
  }

  /** Every node on the path to the rules is missing or an object. */
  predicate PathIsFree(doc: Object) {
    var agent := ObjectAt(doc, "agent");
    var plan := ObjectAt(agent, "plan");
    var permission := ObjectAt(plan, "permission");
    MissingOrObject(doc, "agent") && MissingOrObject(agent, "plan") && MissingOrObject(plan, "permission")
    && MissingOrObject(permission, "bash")
  }

  lemma PermissionExtends(permission: Object, rules: Object)
    ensures Extends(Obj(permission), Obj(Permission(permission, rules))) <==> MissingOrObject(permission, "bash")
  {
    var bash := ObjectAt(permission, "bash");
    assert Extends(Obj(bash), Obj(rules + bash));
    SetExtends(permission, "bash", Obj(rules + bash));
  }

  lemma PlanExtends(plan: Object, rules: Object)
    ensures Extends(Obj(plan), Obj(Plan(plan, rules))) <==>
              MissingOrObject(plan, "permission") && MissingOrObject(ObjectAt(plan, "permission"), "bash")
  {
    var permission := ObjectAt(plan, "permission");
    PermissionExtends(permission, rules);
    SetExtends(plan, "permission", Obj(Permission(permission, rules)));
  }

  lemma AgentExtends(agent: Object, rules: Object)
    ensures Extends(Obj(agent), Obj(Agent(agent, rules))) <==>
              && MissingOrObject(agent, "plan") && MissingOrObject(ObjectAt(agent, "plan"), "permission")
              && MissingOrObject(ObjectAt(ObjectAt(agent, "plan"), "permission"), "bash")
  {
    var plan := ObjectAt(agent, "plan");
    PlanExtends(plan, rules);
    SetExtends(agent, "plan", Obj(Plan(plan, rules)));
  }

  /** The merge loses nothing exactly when the path is free and the instructions are missing or a
      list; any other value in these places is replaced. */
  lemma PreservesIff(doc: Object)
    ensures Preserves(doc, Merged(doc)) <==>
              PathIsFree(doc) && ("instructions" in doc ==> doc["instructions"].List?)
  {
    var out := Merged(doc);
    var agent := ObjectAt(doc, "agent");
    AgentExtends(agent, Rules(COMMANDS));
    assert forall k :: k in doc && k != "instructions" && k != "agent" ==> k in out && out[k] == doc[k];
    assert out["agent"] == Obj(Agent(agent, Rules(COMMANDS)));
    assert out["instructions"] == List(Instructions(ListAt(doc, "instructions")));
    if "agent" in doc && doc["agent"].Obj? {
      assert doc["agent"] == Obj(agent);
    }
  }

  /** A document that loses something: an agent that is null, or any other value that is no object. */
  lemma NullAgentIsLost(other: Json)
    requires !other.Obj?
    ensures var doc: Object := map["agent" := other];
            !Preserves(doc, Merged(doc)) && Merged(doc)["agent"].Obj?
  {
    var doc: Object := map["agent" := other];
    assert !MissingOrObject(doc, "agent");
    PreservesIff(doc);
  }

  /** Values that are not on the path, and rules that were set, are unchanged in every case. */
  lemma OthersUnchanged(doc: Object)
    ensures forall k :: k in doc && k != "instructions" && k != "agent" ==> k in Merged(doc) && Merged(doc)[k] == doc[k]
    ensures forall k :: k in Merged(doc) ==> k in doc || k in [SCHEMA_KEY, "instructions", "agent"]
    ensures forall p :: p in BashRules(doc) ==> p in BashRules(Merged(doc)) && BashRules(Merged(doc))[p] == BashRules(doc)[p]
    ensures forall p :: p in BashRules(Merged(doc)) && p !in BashRules(doc) ==>
              Required(p) && BashRules(Merged(doc))[p] == Str("allow")
  {
    var agent := ObjectAt(doc, "agent");
    assert BashRules(Merged(doc)) == Rules(COMMANDS) + BashRules(doc);
    forall p | p in Rules(COMMANDS) ensures Required(p) && Rules(COMMANDS)[p] == Str("allow") {
      RulesAreRequired(COMMANDS, p);
    }
  }

  /** The positions of the entries that survive. */
  function KeptPositions(list: seq<Json>): (at: seq<nat>)
    decreases |list|
  {
    if list == [] then []
    else
      var n := |list| - 1;
      KeptPositions(list[..n]) + if IsStale(list[n]) then [] else [n]
  }

  /** They keep their order: the kept entries stand at strictly increasing positions, which are
      exactly those of the entries that are not stale. */
  lemma {:induction false} KeptInOrder(list: seq<Json>)
    ensures var at := KeptPositions(list);
            && |at| == |Kept(list)|
            && (forall j :: 0 <= j < |at| ==> at[j] < |list| && list[at[j]] == Kept(list)[j])
            && (forall i, j :: 0 <= i < j < |at| ==> at[i] < at[j])
            && (forall n :: 0 <= n < |list| ==> (n in at <==> !IsStale(list[n])))
    decreases |list|
  {
    if list != [] {
      var n := |list| - 1;
      KeptInOrder(list[..n]);
      assert forall k :: 0 <= k < n ==> list[..n][k] == list[k];
    }
  }
}
