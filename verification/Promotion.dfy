/**
 Mirroring the installed local models into the `models` registry: an upsert per
 installed model, then a sweep of local rows that are no longer installed.
 */
module Promotion {
  import opened Prelude

  /** Registry columns the sync touches, and `display`/`authRef`, which it must leave to the user. */
  datatype Model = Model(
    display: string,
    provider: string,
    endpoint: Option<string>,
    authRef: Option<string>,
    dialect: string,
    context: Option<int>,
    locality: string,
    vram: Option<int>,
    active: bool,
    tools: Option<int>,
    system: Option<int>)

  type Registry = map<string, Model>

  datatype Installed = Installed(name: string, context: Option<int>, vram: Option<int>)

  /** What the probe says of one model; NULL when it could not be reached. */
  datatype Probe = Probe(tools: Option<bool>, system: Option<bool>)

  type Probes = map<string, Probe>

  datatype Counts = Counts(promoted: nat, reactivated: nat, deactivated: nat)

  function BoolToInt(v: Option<bool>): Option<int> {
    match v
    case None => None
    case Some(b) => Some(if b then 1 else 0)
  }

  function ProbeOf(probes: Probes, name: string): Probe {
    if name in probes then probes[name] else Probe(None, None)
  }

  predicate Capable(tools: Option<int>, system: Option<int>) {
    tools == Some(1) && system == Some(1)
  }

  predicate IsLocal(m: Model) {
    m.provider == "local"
  }

  /** Both flags after a sync: whatever was set stays, and a fresh reading only fills a NULL. */
  function Flags(prior: Option<Model>, p: Probe): (Option<int>, Option<int>) {
    (Coalesce(if prior.Some? then prior.value.tools else None, BoolToInt(p.tools)),
     Coalesce(if prior.Some? then prior.value.system else None, BoolToInt(p.system)))
  }

  /** The row one installed model ends up with, given the row it had. */
  function UpsertRow(prior: Option<Model>, i: Installed, endpoint: string, p: Probe): Model {
    var (tools, system) := Flags(prior, p);
    var display := if prior.Some? then prior.value.display else i.name + " (local)";
    var authRef := if prior.Some? then prior.value.authRef else None;
    Model(display, "local", Some(endpoint), authRef, "openai", i.context, "local", i.vram,
          Capable(tools, system), tools, system)
  }

  function Prior(r: Registry, name: string): Option<Model> {
    if name in r then Some(r[name]) else None
  }

  predicate Distinct(installed: seq<Installed>) {
    forall i, j | 0 <= i < j < |installed| :: installed[i].name != installed[j].name
  }

  function InstalledNames(installed: seq<Installed>): set<string> {
    set i | i in installed :: i.name
  }

  /** The registry after promotion, row by row. */
  ghost predicate Mirrors(before: Registry, after: Registry, installed: seq<Installed>, endpoint: string, probes: Probes) {
    && after.Keys == before.Keys + InstalledNames(installed)
    && (forall k | 0 <= k < |installed| ::
          var n := installed[k].name;
          n in after && after[n] == UpsertRow(Prior(before, n), installed[k], endpoint, ProbeOf(probes, n)))
    && (forall n | n in before && n !in InstalledNames(installed) ::
          n in after && after[n] == if IsLocal(before[n]) then before[n].(active := false) else before[n])
  }

  predicate IsPromotion(before: Registry, probes: Probes, name: string) {
    name !in before && CapableNow(before, probes, name)
  }

  predicate IsReactivation(before: Registry, probes: Probes, name: string) {
    name in before && !before[name].active && CapableNow(before, probes, name)
  }

  /** How many installed models get a new capable row. */
  function Promotes(before: Registry, installed: seq<Installed>, probes: Probes): nat {
    if installed == [] then 0
    else
      Promotes(before, installed[..|installed| - 1], probes)
      + if IsPromotion(before, probes, installed[|installed| - 1].name) then 1 else 0
  }

  /** How many installed models get an inactive row switched on. */
  function Reactivates(before: Registry, installed: seq<Installed>, probes: Probes): nat {
    if installed == [] then 0
    else
      Reactivates(before, installed[..|installed| - 1], probes)
      + if IsReactivation(before, probes, installed[|installed| - 1].name) then 1 else 0
  }

  predicate CapableNow(r: Registry, probes: Probes, name: string) {
    var (tools, system) := Flags(Prior(r, name), ProbeOf(probes, name));
    Capable(tools, system)
  }

  /** INSERT … ON CONFLICT(name) DO UPDATE for one installed model. */
  method Upsert(registry: Registry, i: Installed, endpoint: string, p: Probe)
    returns (after: Registry, promoted: bool, reactivated: bool)
    ensures after == registry[i.name := UpsertRow(Prior(registry, i.name), i, endpoint, p)]
    ensures promoted <==> i.name !in registry && after[i.name].active
    ensures reactivated <==> i.name in registry && !registry[i.name].active && after[i.name].active
  {
    var prior := Prior(registry, i.name);
    var (priorTools, priorSystem) := if prior.Some? then (prior.value.tools, prior.value.system) else (None, None);
    // Classifications are sticky: a fresh reading only fills a NULL.
    var tools := if priorTools.Some? then priorTools else BoolToInt(p.tools);
    var system := if priorSystem.Some? then priorSystem else BoolToInt(p.system);
    var capable := tools == Some(1) && system == Some(1);
    if prior.None? {
      after := registry[i.name := Model(i.name + " (local)", "local", Some(endpoint), None, "openai",
                                        i.context, "local", i.vram, capable, tools, system)];
    } else {
      after := registry[i.name := prior.value.(provider := "local", endpoint := Some(endpoint), dialect := "openai",
                                               context := i.context, locality := "local", vram := i.vram,
                                               active := capable, tools := tools, system := system)];
    }
    promoted := prior.None? && capable;
    reactivated := prior.Some? && !prior.value.active && capable;
  }

  /** The registry part-way through the upserts. */
  ghost predicate Upserted(before: Registry, after: Registry, installed: seq<Installed>, endpoint: string, probes: Probes) {
    && after.Keys == before.Keys + InstalledNames(installed)
    && (forall k | 0 <= k < |installed| ::
          && installed[k].name in after
          && after[installed[k].name]
               == UpsertRow(Prior(before, installed[k].name), installed[k], endpoint, ProbeOf(probes, installed[k].name)))
    && (forall n | n in before && n !in InstalledNames(installed) :: n in after && after[n] == before[n])
  }

  lemma UpsertedOneMore(before: Registry, after: Registry, installed: seq<Installed>, i: Installed, endpoint: string, probes: Probes)
    requires Upserted(before, after, installed, endpoint, probes) && i.name !in InstalledNames(installed)
    ensures Prior(after, i.name) == Prior(before, i.name)
    ensures Upserted(before, after[i.name := UpsertRow(Prior(before, i.name), i, endpoint, ProbeOf(probes, i.name))],
                     installed + [i], endpoint, probes)
  {
    hide UpsertRow, ProbeOf;
    assert InstalledNames(installed + [i]) == InstalledNames(installed) + {i.name};
    forall k | 0 <= k < |installed| ensures installed[k].name != i.name {
      assert installed[k] in installed;
    }
  }

  function UpsertAll(r: Registry, installed: seq<Installed>, endpoint: string, probes: Probes): Registry {
    if installed == [] then r
    else
      var mid, i := UpsertAll(r, installed[..|installed| - 1], endpoint, probes), installed[|installed| - 1];
      mid[i.name := UpsertRow(Prior(mid, i.name), i, endpoint, ProbeOf(probes, i.name))]
  }

  lemma {:induction false} UpsertAllUpserts(r: Registry, installed: seq<Installed>, endpoint: string, probes: Probes)
    requires Distinct(installed)
    ensures Upserted(r, UpsertAll(r, installed, endpoint, probes), installed, endpoint, probes)
  {
    if installed != [] {
      var before, i := installed[..|installed| - 1], installed[|installed| - 1];
      NextIsNew(installed, |installed| - 1);
      hide Upserted, InstalledNames, Distinct;
      UpsertAllUpserts(r, before, endpoint, probes);
      assert installed == before + [i];
      UpsertedOneMore(r, UpsertAll(r, before, endpoint, probes), before, i, endpoint, probes);
    }
  }

  lemma CountsAppend(r: Registry, done: seq<Installed>, i: Installed, probes: Probes)
    ensures Promotes(r, done + [i], probes) == Promotes(r, done, probes) + if IsPromotion(r, probes, i.name) then 1 else 0
    ensures Reactivates(r, done + [i], probes) == Reactivates(r, done, probes) + if IsReactivation(r, probes, i.name) then 1 else 0
    ensures InstalledNames(done + [i]) == InstalledNames(done) + {i.name}
  {
    assert (done + [i])[..|done|] == done;
  }

  lemma UpsertAppend(r: Registry, done: seq<Installed>, i: Installed, endpoint: string, probes: Probes)
    ensures var mid := UpsertAll(r, done, endpoint, probes);
      UpsertAll(r, done + [i], endpoint, probes) == mid[i.name := UpsertRow(Prior(mid, i.name), i, endpoint, ProbeOf(probes, i.name))]
  {
    assert (done + [i])[..|done|] == done;
  }

  /** What the upsert of one model is counted as, judged by the registry it started from. */
  lemma CountedAs(r: Registry, mid: Registry, i: Installed, endpoint: string, probes: Probes)
    requires Prior(mid, i.name) == Prior(r, i.name)
    ensures var row := UpsertRow(Prior(mid, i.name), i, endpoint, ProbeOf(probes, i.name));
      && (i.name !in mid && row.active <==> IsPromotion(r, probes, i.name))
      && (i.name in mid && !mid[i.name].active && row.active <==> IsReactivation(r, probes, i.name))
  {
  }

  /** The next model meets the row, or the absence of one, that it had at the start. */
  lemma NextMeetsPrior(r: Registry, done: seq<Installed>, i: Installed, endpoint: string, probes: Probes)
    requires Distinct(done) && i.name !in InstalledNames(done)
    ensures Prior(UpsertAll(r, done, endpoint, probes), i.name) == Prior(r, i.name)
  {
    UpsertAllUpserts(r, done, endpoint, probes);
  }

  /** One more upsert, as the loop of the sync sees it. */
  lemma UpsertStep(r: Registry, done: seq<Installed>, i: Installed, endpoint: string, probes: Probes)
    requires Distinct(done) && i.name !in InstalledNames(done)
    ensures var mid, after := UpsertAll(r, done, endpoint, probes), UpsertAll(r, done + [i], endpoint, probes);
      && after == mid[i.name := UpsertRow(Prior(mid, i.name), i, endpoint, ProbeOf(probes, i.name))]
      && Promotes(r, done + [i], probes) == Promotes(r, done, probes) + (if i.name !in mid && after[i.name].active then 1 else 0)
      && Reactivates(r, done + [i], probes)
           == Reactivates(r, done, probes) + (if i.name in mid && !mid[i.name].active && after[i.name].active then 1 else 0)
      && InstalledNames(done + [i]) == InstalledNames(done) + {i.name}
  {
    NextMeetsPrior(r, done, i, endpoint, probes);
    CountedAs(r, UpsertAll(r, done, endpoint, probes), i, endpoint, probes);
    CountsAppend(r, done, i, probes);
    UpsertAppend(r, done, i, endpoint, probes);
  }

  /** Active local rows outside a set of names. */
  function Stale(r: Registry, keep: set<string>): set<string> {
    set n | n in r && IsLocal(r[n]) && r[n].active && n !in keep
  }

  function Swept(r: Registry, keep: set<string>): Registry {
    map n | n in r :: if n in Stale(r, keep) then r[n].(active := false) else r[n]
  }

  /** Sweeping after the upserts completes the mirror, and switches off the rows that were stale before. */
  lemma SweepCompletes(before: Registry, mid: Registry, installed: seq<Installed>, endpoint: string, probes: Probes)
    requires Distinct(installed) && mid == UpsertAll(before, installed, endpoint, probes)
    ensures Stale(mid, InstalledNames(installed)) == Stale(before, InstalledNames(installed))
    ensures Mirrors(before, Swept(mid, InstalledNames(installed)), installed, endpoint, probes)
  {
    UpsertAllUpserts(before, installed, endpoint, probes);
    forall k | 0 <= k < |installed| ensures installed[k].name in InstalledNames(installed) {
      assert installed[k] in installed;
    }
  }

  lemma NextIsNew(installed: seq<Installed>, k: nat)
    requires Distinct(installed) && k < |installed|
    ensures Distinct(installed[..k]) && installed[k].name !in InstalledNames(installed[..k])
    ensures installed[..k + 1] == installed[..k] + [installed[k]]
  {
  }

  lemma NothingDone(r: Registry, endpoint: string, probes: Probes)
    ensures UpsertAll(r, [], endpoint, probes) == r && InstalledNames([]) == {}
    ensures Promotes(r, [], probes) == 0 && Reactivates(r, [], probes) == 0
  {
  }

  /** The sync itself: the upserts in turn, then the sweep. */
  method PromoteLocalModels(registry: Registry, installed: seq<Installed>, endpoint: string, probes: Probes)
    returns (after: Registry, counts: Counts)
    requires Distinct(installed)
    ensures Mirrors(registry, after, installed, endpoint, probes)
    ensures counts == Counts(Promotes(registry, installed, probes), Reactivates(registry, installed, probes),
                             |Stale(registry, InstalledNames(installed))|)
  {
    NothingDone(registry, endpoint, probes);
    hide Mirrors, UpsertAll, Promotes, Reactivates, InstalledNames;
    after := registry;
    var seen: set<string> := {};
    ghost var done: seq<Installed> := [];
    var promoted, reactivated := 0, 0;
    for k := 0 to |installed|
      invariant done == installed[..k]
      invariant seen == InstalledNames(done)
      invariant after == UpsertAll(registry, done, endpoint, probes)
      invariant promoted == Promotes(registry, done, probes)
      invariant reactivated == Reactivates(registry, done, probes)
    {
      var i := installed[k];
      NextIsNew(installed, k);
      UpsertStep(registry, done, i, endpoint, probes);
      var up, re;
      after, up, re := Upsert(after, i, endpoint, ProbeOf(probes, i.name));
      promoted := promoted + if up then 1 else 0;
      reactivated := reactivated + if re then 1 else 0;
      seen := seen + {i.name};
      done := done + [i];
    }
    assert done == installed;
    SweepCompletes(registry, after, installed, endpoint, probes);
    var swept := Stale(after, seen);
    after := Swept(after, seen);
    counts := Counts(promoted, reactivated, |swept|);
  }

  // ── What promotion guarantees ───────────────────────────────────────────

  /** A local row is active exactly when its model is installed and both of its flags are 1. */
  lemma ActiveIffInstalledAndCapable(before: Registry, after: Registry, installed: seq<Installed>,
        endpoint: string, probes: Probes, name: string)
    requires Mirrors(before, after, installed, endpoint, probes)
    requires name in after && IsLocal(after[name])
    ensures after[name].active <==> name in InstalledNames(installed) && after[name].tools == Some(1) && after[name].system == Some(1)
  {
    if name in InstalledNames(installed) {
      var k :| 0 <= k < |installed| && installed[k].name == name;
    }
  }

  /** Rows of other providers that no local model is named after are left exactly alone. */
  lemma OtherProvidersUntouched(before: Registry, after: Registry, installed: seq<Installed>,
        endpoint: string, probes: Probes, name: string)
    requires Mirrors(before, after, installed, endpoint, probes)
    requires name in before && !IsLocal(before[name])
    ensures after[name] == before[name] <==> name !in InstalledNames(installed)
  {
    if name in InstalledNames(installed) {
      var k :| 0 <= k < |installed| && installed[k].name == name;
      assert IsLocal(after[name]);
    }
  }

  /** What a user may have chosen for a row: its label, its credential and its classification. */
  ghost predicate KeepsChoices(before: Registry, after: Registry) {
    forall n | n in before ::
      && n in after
      && after[n].display == before[n].display
      && after[n].authRef == before[n].authRef
      && (before[n].tools.Some? ==> after[n].tools == before[n].tools)
      && (before[n].system.Some? ==> after[n].system == before[n].system)
  }

  lemma PromotionKeepsChoices(before: Registry, after: Registry, installed: seq<Installed>, endpoint: string, probes: Probes)
    requires Mirrors(before, after, installed, endpoint, probes)
    ensures KeepsChoices(before, after)
  {
    forall n | n in before && n in InstalledNames(installed)
      ensures exists k :: 0 <= k < |installed| && installed[k].name == n
    {
    }
  }

  datatype Inputs = Inputs(installed: seq<Installed>, endpoint: string, probes: Probes)

  /** Successive registries, each the promotion of the one before with inputs of its own. */
  ghost predicate Promotions(regs: seq<Registry>, inputs: seq<Inputs>) {
    && |regs| == |inputs| + 1
    && forall i | 0 <= i < |inputs| :: Mirrors(regs[i], regs[i + 1], inputs[i].installed, inputs[i].endpoint, inputs[i].probes)
  }

  /** No later sequence of promotions changes a flag once it is set. */
  lemma {:induction false} ChoicesSurviveAnyRun(regs: seq<Registry>, inputs: seq<Inputs>)
    requires Promotions(regs, inputs)
    ensures KeepsChoices(regs[0], regs[|inputs|])
  {
    if inputs != [] {
      var k := |inputs| - 1;
      ChoicesSurviveAnyRun(regs[..k + 1], inputs[..k]);
      PromotionKeepsChoices(regs[k], regs[k + 1], inputs[k].installed, inputs[k].endpoint, inputs[k].probes);
    }
  }

  /** Repeating a promotion with the same inputs changes nothing. */
  lemma RepeatChangesNothing(before: Registry, once: Registry, twice: Registry, installed: seq<Installed>, endpoint: string, probes: Probes)
    requires Mirrors(before, once, installed, endpoint, probes) && Mirrors(once, twice, installed, endpoint, probes)
    ensures twice == once
  {
    assert twice.Keys == once.Keys;
    forall n | n in once ensures twice[n] == once[n] {
      if n in InstalledNames(installed) {
        var k :| 0 <= k < |installed| && installed[k].name == n;
      }
    }
  }

  /** A repeated promotion also counts nothing: it reports (0, 0, 0). */
  lemma {:induction false} RepeatCountsNothing(before: Registry, once: Registry, all: seq<Installed>,
        installed: seq<Installed>, endpoint: string, probes: Probes)
    requires Mirrors(before, once, all, endpoint, probes) && installed <= all
    ensures Promotes(once, installed, probes) == 0 && Reactivates(once, installed, probes) == 0
    ensures Stale(once, InstalledNames(all)) == {}
  {
    if installed != [] {
      var k := |installed| - 1;
      RepeatCountsNothing(before, once, all, installed[..k], endpoint, probes);
      assert installed[k] == all[k];
    }
  }
}
