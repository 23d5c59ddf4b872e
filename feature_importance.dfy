/**
 * The anomaly explanation panel: the selected anomaly's feature list split
 * into the top five and the rest, the highlight rule, and the close buttons.
 */
module FeatureImportance {
  import opened Wrappers
  import opened Json
  import opened AnomalyStore

  const TopCount: nat := 5
  /** A feature contributing more than this percentage is highlighted. */
  const HighContribution: real := 15.0

  /** What the panel shows: the top features, the overflow list and the highlight of each top feature. */
  datatype Panel = Panel(top: seq<Value>, overflow: Option<seq<Value>>, high: seq<bool>)

  /**
   * `selectedAnomaly.feature_importance?.features || []`: the list when the
   * importance object carries a feature array, empty otherwise.
   */
  function Features(selected: Record): (fs: seq<Value>)
    ensures forall imp, items ::
      Get(selected, "feature_importance") == Some(Obj(imp)) && Get(imp, "features") == Some(Arr(items))
      ==> fs == items
    ensures (forall imp :: Get(selected, "feature_importance") == Some(Obj(imp)) ==>
               Get(imp, "features").None? || !Get(imp, "features").value.Arr?)
            ==> fs == []
  {
    if "feature_importance" in selected && selected["feature_importance"].Obj?
       && "features" in selected["feature_importance"].fields
       && selected["feature_importance"].fields["features"].Arr?
    then selected["feature_importance"].fields["features"].items
    else []
  }

  /** `contribution > 15` on a numeric contribution, strictly. */
  predicate IsHighContributor(feature: Value) {
    feature.Obj? && "contribution" in feature.fields && feature.fields["contribution"].Num?
    && feature.fields["contribution"].n > HighContribution
  }

  /**
   * The panel for the current selection: nothing without a selection;
   * otherwise the first min(5, n) features, the rest as overflow only when
   * there are more than five, and the highlight of each top feature.
   */
  function View(selected: Option<Record>): (p: Option<Panel>)
    ensures p.None? <==> selected.None?
    ensures p.Some? ==>
      var fs := Features(selected.value);
      && |p.value.top| == (if |fs| < TopCount then |fs| else TopCount)
      && (p.value.overflow.Some? <==> |fs| > TopCount)
      && p.value.top + (if p.value.overflow.Some? then p.value.overflow.value else []) == fs
      && |p.value.high| == |p.value.top|
      && forall i :: 0 <= i < |p.value.top| ==> (p.value.high[i] <==> IsHighContributor(p.value.top[i]))
  {
    match selected
    case None => None
    case Some(anomaly) =>
      var fs := Features(anomaly);
      var top := if |fs| <= TopCount then fs else fs[..TopCount];
      var overflow := if |fs| > TopCount then Some(fs[TopCount..]) else None;
      assert |fs| > TopCount ==> top + fs[TopCount..] == fs;
      Some(Panel(top, overflow, seq(|top|, i requires 0 <= i < |top| => IsHighContributor(top[i]))))
  }

  /** Either close button: `clearSelection` and nothing else; the panel then shows nothing. */
  method Close(store: Store)
    requires store.Valid()
    modifies store
    ensures store.Valid()
    ensures store.State() == Apply(old(store.State()), ClearSelection)
    ensures View(store.State().selectedAnomaly).None?
  {
    store.ClearSelection();
  }
}
