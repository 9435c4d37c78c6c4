// Fitting a tool-call event into its size limit: the same event is built at
// ever poorer stages until one fits.

module EventPruning {

  import opened Wrappers
  import opened Truncation

  type Properties = map<string, Value>

  const RESPONSE := "$mcp_response"
  const PARAMETERS := "$mcp_parameters"
  const GROUPS := "$groups"
  const SET := "$set"
  const PROCESS_PROFILE := "$process_person_profile"

  const MAX_EVENT_BYTES: nat := 102_400

  /** What an event keeps: values cut to a depth, and each optional group of properties or not. */
  datatype Stage = Stage(depth: int, response: bool, parameters: bool, custom: bool, person: bool)

  /** Full content at every depth from this one down to 1. */
  function FullStages(depth: nat): (stages: seq<Stage>)
    ensures |stages| == depth
    ensures forall i :: 0 <= i < depth ==> stages[i] == Stage(depth - i, true, true, true, true)
  {
    if depth == 0 then [] else [Stage(depth, true, true, true, true)] + FullStages(depth - 1)
  }

  /** The stages that drop each optional group in turn. */
  const POORER: seq<Stage> := [
    Stage(1, false, true, true, true),
    Stage(1, false, false, true, true),
    Stage(1, false, false, false, true),
    Stage(1, false, false, false, false)]

  function CaptureStages(): seq<Stage> {
    FullStages(MAX_DEPTH) + POORER
  }

  /**
   * A prepared tool call: `person` holds the $set properties of an explicit id, `disabled` is the
   * value false of a suppressed person profile.
   */
  datatype Prepared = Prepared(
    base: Properties, custom: Properties, groups: Option<Value>, person: Option<Value>, disabled: Option<Value>)

  // ------------------------------------------------------------ one stage

  function Limited(ps: Properties, key: string, keep: bool, depth: int): Properties {
    if key !in ps then ps
    else if keep then ps[key := TruncateNested(ps[key], depth)]
    else ps - {key}
  }

  function With(ps: Properties, key: string, value: Option<Value>): Properties {
    if value.Some? then ps[key := value.value] else ps
  }

  function CaptureAt(p: Prepared, stage: Stage): Properties {
    var merged := p.base + if stage.custom then p.custom else map[];
    var limited := Limited(Limited(merged, RESPONSE, stage.response, stage.depth), PARAMETERS, stage.parameters, stage.depth);
    With(With(With(limited, GROUPS, p.groups), SET, if stage.person then p.person else None), PROCESS_PROFILE, p.disabled)
  }

  // ------------------------------------------------------------ the first stage that fits

  datatype Built = Fits(properties: Properties) | TooLarge | Unmeasured

  /** None is a failure to encode the event. */
  type Size = Properties -> Option<nat>

  function FirstFit(p: Prepared, size: Size, stages: seq<Stage>): Built {
    if |stages| == 0 then TooLarge
    else
      var capture := CaptureAt(p, stages[0]);
      match size(capture)
      case None => Unmeasured
      case Some(n) => if n <= MAX_EVENT_BYTES then Fits(capture) else FirstFit(p, size, stages[1..])
  }

  predicate Oversized(p: Prepared, size: Size, stage: Stage) {
    size(CaptureAt(p, stage)).Some? && size(CaptureAt(p, stage)).value > MAX_EVENT_BYTES
  }

  /** The event of stage k is measured and fits. */
  predicate Fitting(p: Prepared, size: Size, stage: Stage) {
    size(CaptureAt(p, stage)).Some? && size(CaptureAt(p, stage)).value <= MAX_EVENT_BYTES
  }

  /** Stage k is the first that fits: every stage before it was measured and too large. */
  ghost predicate RichestFit(p: Prepared, size: Size, stages: seq<Stage>, k: nat) {
    k < |stages| && Fitting(p, size, stages[k]) && forall i :: 0 <= i < k ==> Oversized(p, size, stages[i])
  }

  lemma RichestLater(p: Prepared, size: Size, stages: seq<Stage>, k: nat)
    requires |stages| > 0 && Oversized(p, size, stages[0]) && RichestFit(p, size, stages[1..], k)
    ensures RichestFit(p, size, stages, k + 1) && stages[k + 1] == stages[1..][k]
  {
    forall i | 0 <= i < k + 1 ensures Oversized(p, size, stages[i]) {
      if i > 0 {
        assert stages[i] == stages[1..][i - 1];
      }
    }
  }

  /** The event sent is the richest that fits. */
  lemma {:induction false} FirstFitMeans(p: Prepared, size: Size, stages: seq<Stage>)
    ensures FirstFit(p, size, stages) == TooLarge <==> forall i :: 0 <= i < |stages| ==> Oversized(p, size, stages[i])
    ensures FirstFit(p, size, stages).Fits? ==>
              exists k: nat :: RichestFit(p, size, stages, k)
                && FirstFit(p, size, stages).properties == CaptureAt(p, stages[k])
  {
    if |stages| > 0 && Oversized(p, size, stages[0]) {
      FirstFitMeans(p, size, stages[1..]);
      assert forall i :: 0 < i < |stages| ==> stages[i] == stages[1..][i - 1];
      if FirstFit(p, size, stages).Fits? {
        var k: nat :| RichestFit(p, size, stages[1..], k)
          && FirstFit(p, size, stages[1..]).properties == CaptureAt(p, stages[1..][k]);
        RichestLater(p, size, stages, k);
      }
    } else if FirstFit(p, size, stages).Fits? {
      assert RichestFit(p, size, stages, 0);
    }
  }

  // ------------------------------------------------------------ the stages only take away

  predicate Poorer(a: Stage, b: Stage) {
    && 1 <= b.depth <= a.depth <= MAX_DEPTH
    && (b.response ==> a.response) && (b.parameters ==> a.parameters) && (b.custom ==> a.custom) && (b.person ==> a.person)
  }

  /** A group of properties dropped by a stage stays dropped, and depths only shrink. */
  lemma StagesOnlyTakeAway(i: nat, j: nat)
    requires i <= j < |CaptureStages()|
    ensures Poorer(CaptureStages()[i], CaptureStages()[j])
  {
    var full := FullStages(MAX_DEPTH);
    assert forall k :: 0 <= k < |CaptureStages()| ==>
             CaptureStages()[k] == if k < MAX_DEPTH then full[k] else POORER[k - MAX_DEPTH];
  }

  /** Only the response, the parameters and the identity properties depend on the stage. */
  lemma OthersAreKept(p: Prepared, stage: Stage, key: string)
    requires key !in {RESPONSE, PARAMETERS, GROUPS, SET, PROCESS_PROFILE}
    ensures var merged := p.base + if stage.custom then p.custom else map[];
            && (key in CaptureAt(p, stage) <==> key in merged)
            && (key in merged ==> CaptureAt(p, stage)[key] == merged[key])
  {
  }

  /** The property as it was before preparation cut it to the greatest depth. */
  ghost predicate PreparedFrom(p: Prepared, key: string, raw: Value) {
    && key in {RESPONSE, PARAMETERS} && key !in p.custom
    && key in p.base && p.base[key] == TruncateNested(raw, MAX_DEPTH)
  }

  predicate Keeps(stage: Stage, key: string) {
    if key == RESPONSE then stage.response else stage.parameters
  }

  lemma KeysDiffer()
    ensures RESPONSE !in {PARAMETERS, GROUPS, SET, PROCESS_PROFILE}
    ensures PARAMETERS !in {RESPONSE, GROUPS, SET, PROCESS_PROFILE}
  {
    assert RESPONSE[5] == 'r' && PARAMETERS[5] == 'p';
    assert |GROUPS| == 7 && |SET| == 4 && PROCESS_PROFILE[1] == 'p' && RESPONSE[1] == 'm' && PARAMETERS[1] == 'm';
  }

  lemma LimitedAt(p: Prepared, stage: Stage, key: string)
    requires key in {RESPONSE, PARAMETERS} && key !in p.custom && key in p.base
    ensures key in CaptureAt(p, stage) <==> Keeps(stage, key)
    ensures Keeps(stage, key) ==> CaptureAt(p, stage)[key] == TruncateNested(p.base[key], stage.depth)
  {
    KeysDiffer();
    var merged := p.base + if stage.custom then p.custom else map[];
    assert key in merged && merged[key] == p.base[key];
  }

  /** Whatever stage is sent, its response and parameters are the originals cut once, at its depth. */
  lemma StageCutsOnce(p: Prepared, k: nat, key: string, raw: Value)
    requires k < |CaptureStages()| && PreparedFrom(p, key, raw)
    ensures var stage := CaptureStages()[k];
            && (key in CaptureAt(p, stage) <==> Keeps(stage, key))
            && (Keeps(stage, key) ==> CaptureAt(p, stage)[key] == TruncateNested(raw, stage.depth))
  {
    var stage := CaptureStages()[k];
    StagesOnlyTakeAway(k, k);
    LimitedAt(p, stage, key);
    TruncationComposes(raw, MAX_DEPTH, stage.depth);
  }

  /** So a later stage is an earlier one cut further. */
  lemma LaterStageCutsFurther(p: Prepared, i: nat, j: nat, key: string, raw: Value)
    requires i <= j < |CaptureStages()| && PreparedFrom(p, key, raw) && Keeps(CaptureStages()[j], key)
    ensures var a, b := CaptureStages()[i], CaptureStages()[j];
            && key in CaptureAt(p, a) && key in CaptureAt(p, b)
            && CaptureAt(p, b)[key] == TruncateNested(CaptureAt(p, a)[key], b.depth)
  {
    StagesOnlyTakeAway(i, j);
    StageCutsOnce(p, i, key, raw);
    StageCutsOnce(p, j, key, raw);
    TruncationComposes(raw, CaptureStages()[i].depth, CaptureStages()[j].depth);
  }

  // ------------------------------------------------------------ as it runs

  /** A property map, edited in place. */
  class PropertyMap {
    var entries: Properties

    constructor (entries: Properties)
      ensures this.entries == entries
    {
      this.entries := entries;
    }

    method LimitProperty(key: string, keep: bool, depth: int)
      modifies this
      ensures entries == Limited(old(entries), key, keep, depth)
    {
      if key in entries {
        if keep {
          entries := entries[key := TruncateNested(entries[key], depth)];
        } else {
          entries := entries - {key};
        }
      }
    }

    method ApplyIdentity(p: Prepared, includeSet: bool)
      modifies this
      ensures entries == With(With(With(old(entries), GROUPS, p.groups), SET, if includeSet then p.person else None),
                              PROCESS_PROFILE, p.disabled)
    {
      if p.groups.Some? {
        entries := entries[GROUPS := p.groups.value];
      }
      if includeSet && p.person.Some? {
        entries := entries[SET := p.person.value];
      }
      if p.disabled.Some? {
        entries := entries[PROCESS_PROFILE := p.disabled.value];
      }
    }
  }

  method BuildAt(p: Prepared, stage: Stage) returns (properties: Properties)
    ensures properties == CaptureAt(p, stage)
  {
    var custom := if stage.custom then p.custom else map[];
    var merged := new PropertyMap(p.base + custom);
    merged.LimitProperty(RESPONSE, stage.response, stage.depth);
    merged.LimitProperty(PARAMETERS, stage.parameters, stage.depth);
    merged.ApplyIdentity(p, stage.person);
    properties := merged.entries;
  }

  method BuildCapture(p: Prepared, size: Size) returns (built: Built)
    ensures built == FirstFit(p, size, CaptureStages())
  {
    var stages := CaptureStages();
    var i := 0;
    while i < |stages|
      invariant i <= |stages|
      invariant FirstFit(p, size, stages) == FirstFit(p, size, stages[i..])
    {
      assert stages[i..][1..] == stages[i + 1..];
      var capture := BuildAt(p, stages[i]);
      var n := size(capture);
      if n.None? {
        return Unmeasured;
      }
      if n.value <= MAX_EVENT_BYTES {
        return Fits(capture);
      }
      i := i + 1;
    }
    return TooLarge;
  }
}
