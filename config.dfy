/** The scoring configuration of the efficiency calculator: a nested dictionary of
    defaults that user values override key by key, recursively, and the typed view of it
    that the scorer reads. */
module CalculatorConfig {
  import opened Wrappers

  /** A configuration value: a number, some other scalar, or a nested section. */
  datatype CfgValue = Num(x: real) | Str(s: string) | Section(entries: map<string, CfgValue>)

  type Tree = map<string, CfgValue>

  /** The recursive override merge: a key whose old and new values are both sections
      is merged section by section; any other key takes the new value. */
  function Merge(base: Tree, update: Tree): (r: Tree)
    ensures r.Keys == base.Keys + update.Keys
    decreases Section(update)
  {
    map k | k in base.Keys + update.Keys ::
      if k in update then
        (if k in base && base[k].Section? && update[k].Section?
         then Section(Merge(base[k].entries, update[k].entries))
         else update[k])
      else base[k]
  }

  /** The value reached by following the keys of `path`, if any. */
  function Lookup(t: Tree, path: seq<string>): Option<CfgValue>
    requires |path| > 0
    decreases |path|
  {
    if path[0] !in t then None
    else if |path| == 1 then Some(t[path[0]])
    else match t[path[0]]
      case Section(m) => Lookup(m, path[1..])
      case _ => None
  }

  /** True when the update supplies a value at `path` or at a prefix of it that
      replaces the base's value there. */
  predicate Touches(update: Tree, path: seq<string>)
    requires |path| > 0
    decreases |path|
  {
    path[0] in update &&
    (|path| == 1 || !update[path[0]].Section? || Touches(update[path[0]].entries, path[1..]))
  }

  lemma {:induction false} MergeEmptyUpdate(base: Tree)
    ensures Merge(base, map[]) == base
  {
  }

  lemma {:induction false} MergeSelf(t: Tree)
    ensures Merge(t, t) == t
    decreases Section(t)
  {
    forall k | k in t && t[k].Section?
      ensures Merge(t[k].entries, t[k].entries) == t[k].entries
    {
      MergeSelf(t[k].entries);
    }
  }

  /** Applying the same override twice changes nothing more. */
  lemma {:induction false} MergeIdempotent(base: Tree, update: Tree)
    ensures Merge(Merge(base, update), update) == Merge(base, update)
    decreases Section(update)
  {
    var once := Merge(base, update);
    forall k | k in update && update[k].Section?
      ensures once[k].Section? && Merge(once[k].entries, update[k].entries) == once[k].entries
    {
      if k in base && base[k].Section? {
        MergeIdempotent(base[k].entries, update[k].entries);
      } else {
        MergeSelf(update[k].entries);
      }
    }
  }

  /** Every scalar the user supplies is what the merged configuration holds there. */
  lemma {:induction false} UpdateWins(base: Tree, update: Tree, path: seq<string>)
    requires |path| > 0
    requires Lookup(update, path).Some? && !Lookup(update, path).value.Section?
    ensures Lookup(Merge(base, update), path) == Lookup(update, path)
    decreases |path|
  {
    var k := path[0];
    if |path| > 1 && k in base && base[k].Section? && update[k].Section? {
      UpdateWins(base[k].entries, update[k].entries, path[1..]);
    }
  }

  /** Every default that the user does not override is kept. */
  lemma {:induction false} UntouchedKept(base: Tree, update: Tree, path: seq<string>)
    requires |path| > 0
    requires !Touches(update, path)
    ensures Lookup(Merge(base, update), path) == Lookup(base, path)
    decreases |path|
  {
    var k := path[0];
    if k in update && |path| > 1 && update[k].Section? {
      if k in base && base[k].Section? {
        UntouchedKept(base[k].entries, update[k].entries, path[1..]);
      } else {
        UntouchedAbsent(update[k].entries, path[1..]);
      }
    }
  }

  lemma {:induction false} UntouchedAbsent(update: Tree, path: seq<string>)
    requires |path| > 0
    requires !Touches(update, path)
    ensures Lookup(update, path) == None
    decreases |path|
  {
    if path[0] in update && |path| > 1 {
      UntouchedAbsent(update[path[0]].entries, path[1..]);
    }
  }

  /** `merge_dicts`: walks the update's keys one at a time, descending into a section
      whenever both sides hold one. */
  method MergeInto(base: Tree, update: Tree) returns (r: Tree)
    ensures r == Merge(base, update)
    decreases Section(update)
  {
    r := base;
    var pending := update.Keys;
    while pending != {}
      invariant pending <= update.Keys
      invariant r.Keys == base.Keys + (update.Keys - pending)
      invariant forall k :: k in r && k !in update.Keys - pending ==> r[k] == base[k]
      invariant forall k :: k in update.Keys - pending ==> r[k] == Merge(base, update)[k]
      decreases pending
    {
      var k :| k in pending;
      if k in r && r[k].Section? && update[k].Section? {
        var nested := MergeInto(r[k].entries, update[k].entries);
        r := r[k := Section(nested)];
      } else {
        r := r[k := update[k]];
      }
      pending := pending - {k};
    }
  }

  datatype EarlyThresholds = EarlyThresholds(veryEarlyDays: real, earlyDays: real, slightlyEarlyDays: real)
  datatype EarlyScores = EarlyScores(veryEarly: real, early: real, slightlyEarly: real, onTime: real)
  datatype EarlyBonuses = EarlyBonuses(veryEarly: real, early: real, slightlyEarly: real)
  /** One value per late tier: 1-3, 4-7, 8-14 and 15 or more days late. */
  datatype LateTable = LateTable(late1To3: real, late4To7: real, late8To14: real, late15Plus: real)
  datatype Weights = Weights(fairEfficiency: real, deliveryScore: real, completionRate: real, onTimeDelivery: real)

  /** The typed view of the options the scorer reads. */
  datatype Config = Config(
    completionBonusPercentage: real,
    maxEfficiencyCap: real,
    maxHoursPerDay: real,
    thresholds: EarlyThresholds,
    earlyScores: EarlyScores,
    earlyBonuses: EarlyBonuses,
    lateScores: LateTable,
    lateMitigation: LateTable,
    weights: Weights)

  function DefaultTree(): Tree {
    map[
      "completion_bonus_percentage" := Num(0.20),
      "max_efficiency_cap" := Num(150.0),
      "max_hours_per_day" := Num(8.0),
      "early_delivery_thresholds" := Section(DefaultThresholdsTree()),
      "early_delivery_scores" := Section(DefaultEarlyScoresTree()),
      "early_delivery_bonuses" := Section(DefaultEarlyBonusesTree()),
      "late_delivery_scores" := Section(LateTree(90.0, 80.0, 70.0, 60.0)),
      "late_penalty_mitigation" := Section(LateTree(2.0, 4.0, 6.0, 8.0)),
      "developer_score_weights" := Section(DefaultWeightsTree()),
      "default_work_item_hours" := Section(map[
        "user story" := Num(8.0), "task" := Num(4.0), "bug" := Num(2.0), "default" := Num(4.0)])
    ]
  }

  function DefaultThresholdsTree(): Tree {
    map["very_early_days" := Num(7.0), "early_days" := Num(3.0), "slightly_early_days" := Num(1.0)]
  }

  function DefaultEarlyScoresTree(): Tree {
    map["very_early" := Num(130.0), "early" := Num(120.0), "slightly_early" := Num(110.0),
        "on_time" := Num(100.0)]
  }

  function DefaultEarlyBonusesTree(): Tree {
    map["very_early" := Num(1.0), "early" := Num(0.5), "slightly_early" := Num(0.25)]
  }

  function LateTree(a: real, b: real, c: real, d: real): Tree {
    map["late_1_3" := Num(a), "late_4_7" := Num(b), "late_8_14" := Num(c), "late_15_plus" := Num(d)]
  }

  function DefaultWeightsTree(): Tree {
    map["fair_efficiency" := Num(0.25), "delivery_score" := Num(0.50),
        "completion_rate" := Num(0.15), "on_time_delivery" := Num(0.10)]
  }

  function DefaultConfig(): Config {
    Config(0.20, 150.0, 8.0,
      EarlyThresholds(7.0, 3.0, 1.0),
      EarlyScores(130.0, 120.0, 110.0, 100.0),
      EarlyBonuses(1.0, 0.5, 0.25),
      LateTable(90.0, 80.0, 70.0, 60.0),
      LateTable(2.0, 4.0, 6.0, 8.0),
      Weights(0.25, 0.50, 0.15, 0.10))
  }

  /** `t[key]` when it is a number. */
  function NumIn(t: Tree, key: string): Option<real> {
    if key in t && t[key].Num? then Some(t[key].x) else None
  }

  /** `t[key]` when it is a section. */
  function SectionIn(t: Tree, key: string): Option<Tree> {
    if key in t && t[key].Section? then Some(t[key].entries) else None
  }

  function ThresholdsFrom(t: Tree): Option<EarlyThresholds> {
    var a :- NumIn(t, "very_early_days");
    var b :- NumIn(t, "early_days");
    var c :- NumIn(t, "slightly_early_days");
    Some(EarlyThresholds(a, b, c))
  }

  function EarlyScoresFrom(t: Tree): Option<EarlyScores> {
    var a :- NumIn(t, "very_early");
    var b :- NumIn(t, "early");
    var c :- NumIn(t, "slightly_early");
    var d :- NumIn(t, "on_time");
    Some(EarlyScores(a, b, c, d))
  }

  function EarlyBonusesFrom(t: Tree): Option<EarlyBonuses> {
    var a :- NumIn(t, "very_early");
    var b :- NumIn(t, "early");
    var c :- NumIn(t, "slightly_early");
    Some(EarlyBonuses(a, b, c))
  }

  function LateTableFrom(t: Tree): Option<LateTable> {
    var a :- NumIn(t, "late_1_3");
    var b :- NumIn(t, "late_4_7");
    var c :- NumIn(t, "late_8_14");
    var d :- NumIn(t, "late_15_plus");
    Some(LateTable(a, b, c, d))
  }

  function WeightsFrom(t: Tree): Option<Weights> {
    var a :- NumIn(t, "fair_efficiency");
    var b :- NumIn(t, "delivery_score");
    var c :- NumIn(t, "completion_rate");
    var d :- NumIn(t, "on_time_delivery");
    Some(Weights(a, b, c, d))
  }

  /** Reads every option the scorer uses; `None` when one is missing or has the
      wrong shape. */
  function FromTree(t: Tree): Option<Config> {
    var pct :- NumIn(t, "completion_bonus_percentage");
    var cap :- NumIn(t, "max_efficiency_cap");
    var maxHours :- NumIn(t, "max_hours_per_day");
    var thresholds :- ThresholdsFrom(SectionIn(t, "early_delivery_thresholds").GetOr(map[]));
    var earlyScores :- EarlyScoresFrom(SectionIn(t, "early_delivery_scores").GetOr(map[]));
    var earlyBonuses :- EarlyBonusesFrom(SectionIn(t, "early_delivery_bonuses").GetOr(map[]));
    var lateScores :- LateTableFrom(SectionIn(t, "late_delivery_scores").GetOr(map[]));
    var lateMitigation :- LateTableFrom(SectionIn(t, "late_penalty_mitigation").GetOr(map[]));
    var weights :- WeightsFrom(SectionIn(t, "developer_score_weights").GetOr(map[]));
    Some(Config(pct, cap, maxHours, thresholds, earlyScores, earlyBonuses,
                lateScores, lateMitigation, weights))
  }

  /** The default dictionary reads back as the documented defaults. */
  lemma DefaultsRead()
    ensures FromTree(DefaultTree()) == Some(DefaultConfig())
  {
    DefaultScalarsRead();
    DefaultSectionsFound();
    DefaultSectionsRead();
  }

  lemma DefaultScalarsRead()
    ensures NumIn(DefaultTree(), "completion_bonus_percentage") == Some(0.20)
    ensures NumIn(DefaultTree(), "max_efficiency_cap") == Some(150.0)
    ensures NumIn(DefaultTree(), "max_hours_per_day") == Some(8.0)
  {
  }

  lemma DefaultSectionsFound()
    ensures SectionIn(DefaultTree(), "early_delivery_thresholds") == Some(DefaultThresholdsTree())
    ensures SectionIn(DefaultTree(), "early_delivery_scores") == Some(DefaultEarlyScoresTree())
    ensures SectionIn(DefaultTree(), "early_delivery_bonuses") == Some(DefaultEarlyBonusesTree())
    ensures SectionIn(DefaultTree(), "late_delivery_scores") == Some(LateTree(90.0, 80.0, 70.0, 60.0))
    ensures SectionIn(DefaultTree(), "late_penalty_mitigation") == Some(LateTree(2.0, 4.0, 6.0, 8.0))
    ensures SectionIn(DefaultTree(), "developer_score_weights") == Some(DefaultWeightsTree())
  {
  }

  lemma DefaultSectionsRead()
    ensures ThresholdsFrom(DefaultThresholdsTree()) == Some(DefaultConfig().thresholds)
    ensures EarlyScoresFrom(DefaultEarlyScoresTree()) == Some(DefaultConfig().earlyScores)
    ensures EarlyBonusesFrom(DefaultEarlyBonusesTree()) == Some(DefaultConfig().earlyBonuses)
    ensures LateTableFrom(LateTree(90.0, 80.0, 70.0, 60.0)) == Some(DefaultConfig().lateScores)
    ensures LateTableFrom(LateTree(2.0, 4.0, 6.0, 8.0)) == Some(DefaultConfig().lateMitigation)
    ensures WeightsFrom(DefaultWeightsTree()) == Some(DefaultConfig().weights)
  {
  }

  /** The calculator object: it owns the merged configuration dictionary. */
  class EfficiencyCalculator {
    var config: Tree

    /** `__init__`: the defaults, overridden by `scoringConfig` when one is given and it
        is not empty. */
    constructor (scoringConfig: Option<Tree>)
      ensures scoringConfig.Some? && scoringConfig.value != map[] ==>
        config == Merge(DefaultTree(), scoringConfig.value)
      ensures scoringConfig.None? || scoringConfig.value == map[] ==> config == DefaultTree()
    {
      var merged := DefaultTree();
      if scoringConfig.Some? && scoringConfig.value != map[] {
        merged := MergeInto(merged, scoringConfig.value);
      }
      config := merged;
    }

    /** `_update_config`. */
    method UpdateConfig(userConfig: Tree)
      modifies this
      ensures config == Merge(old(config), userConfig)
    {
      config := MergeInto(config, userConfig);
    }

    /** The typed options the scoring functions are given. */
    function Settings(): Option<Config>
      reads this
    {
      FromTree(config)
    }
  }
}
