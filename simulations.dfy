/** What the aggregation reads from the microsimulation engine, and
    `Aggregates.get_aggregate`, which reduces one variable for the current
    data and, when the engine has it, the default (reference-law) data. */
module Simulations {
  import opened Values
  import opened Reducer

  /** `aggregated_by_entity(entity, ...)` for the current data: the entity's
      survey weight (`data[WEIGHT]`) and its variable columns, on one index. */
  datatype Frame = Frame(weight: seq<Num>, columns: map<string, seq<Num>>)

  /** The engine as the aggregation sees it. `entities` is `get_col(var).entity`
      (absent: the lookup raises); `labels` is `var2label`; `frames` holds the
      current data per entity; `defaultFrames` the default data per entity,
      absent when the engine returns `None` for it. */
  datatype Simulation = Simulation(
    hasOutputTable: bool,
    labels: map<string, string>,
    entities: map<string, string>,
    frames: map<string, Frame>,
    defaultFrames: map<string, map<string, seq<Num>>>)

  /** Every series the engine returns for one entity is aligned on the same
      records, current and default data alike. */
  ghost predicate Aligned(sim: Simulation) {
    (forall e, c :: e in sim.frames && c in sim.frames[e].columns ==>
       |sim.frames[e].columns[c]| == |sim.frames[e].weight|)
    && (forall e :: e in sim.defaultFrames ==> e in sim.frames)
    && (forall e, c :: e in sim.defaultFrames && c in sim.defaultFrames[e] && e in sim.frames ==>
          |sim.defaultFrames[e][c]| == |sim.frames[e].weight|)
  }

  /** The dict `m_b` returned by get_aggregate: the 'data' entry, and the
      'default' entry when the engine returned default data. */
  datatype VarAggregate = VarAggregate(current: Aggregate, default: Option<Aggregate>)

  /** Every lookup get_aggregate performs succeeds. */
  ghost predicate Resolvable(sim: Simulation, v: string, filterBy: Option<string>) {
    v in sim.entities && sim.entities[v] in sim.frames
    && v in sim.frames[sim.entities[v]].columns
    && (filterBy.Some? ==> filterBy.value in sim.frames[sim.entities[v]].columns)
    && (sim.entities[v] in sim.defaultFrames ==> v in sim.defaultFrames[sim.entities[v]])
  }

  /** The filter series at the variable's entity, or `None` for no filter. */
  function FilterSeries(frame: Frame, filterBy: Option<string>): Option<seq<Num>>
    requires filterBy.Some? ==> filterBy.value in frame.columns
  {
    if filterBy.Some? then Some(frame.columns[filterBy.value]) else None
  }

  /** `get_aggregate(variable, filter_by)`. Both datasets are reduced with the
      one weight vector built from the CURRENT data's weight and filter; the
      default entry exists exactly when the engine has default data for the
      variable's entity; a failing lookup is the engine's KeyError. */
  function GetAggregate(sim: Simulation, v: string, filterBy: Option<string>): (r: Result<VarAggregate>)
    requires Aligned(sim)
    ensures r.Ok? <==> Resolvable(sim, v, filterBy)
    ensures r.Ok? ==>
      var frame := sim.frames[sim.entities[v]];
      var w := WeightVector(frame.weight, FilterSeries(frame, filterBy));
      && r.value.current == Reduce(frame.columns[v], w)
      && (r.value.default.Some? <==> sim.entities[v] in sim.defaultFrames)
      && (r.value.default.Some? ==> r.value.default.value == Reduce(sim.defaultFrames[sim.entities[v]][v], w))
  {
    if v !in sim.entities then Err(MissingKey(v))
    else
      var entity := sim.entities[v];
      if entity !in sim.frames then Err(MissingKey(entity))
      else
        var data := sim.frames[entity];
        if v !in data.columns then Err(MissingKey(v))
        else if filterBy.Some? && filterBy.value !in data.columns then Err(MissingKey(filterBy.value))
        else
          var weight := WeightVector(data.weight, FilterSeries(data, filterBy));
          var current := Reduce(data.columns[v], weight);
          if entity !in sim.defaultFrames then Ok(VarAggregate(current, None))
          else if v !in sim.defaultFrames[entity] then Err(MissingKey(v))
          else Ok(VarAggregate(current, Some(Reduce(sim.defaultFrames[entity][v], weight))))
  }

  /** Without a filtering variable the reduction uses the engine's weights
      unchanged; with one whose series is 1 everywhere it gives the same cells. */
  lemma UnitFilterIsNoFilter(sim: Simulation, v: string, f: string)
    requires Aligned(sim) && Resolvable(sim, v, Some(f))
    requires var frame := sim.frames[sim.entities[v]];
      forall i :: 0 <= i < |frame.columns[f]| ==> frame.columns[f][i] == Some(1.0)
    ensures GetAggregate(sim, v, Some(f)) == GetAggregate(sim, v, None)
  {
    var frame := sim.frames[sim.entities[v]];
    var w := WeightVector(frame.weight, Some(frame.columns[f]));
    forall i | 0 <= i < |w|
      ensures w[i] == frame.weight[i]
    {
      if frame.weight[i].Some? {
        assert w[i].value == frame.weight[i].value * 1.0;
      }
    }
    assert w == frame.weight;
  }

  /** A reform that leaves a variable's values unchanged reports the same
      default cells as current ones, because the weights are shared. */
  lemma UnchangedVariableHasEqualDefault(sim: Simulation, v: string, filterBy: Option<string>)
    requires Aligned(sim) && Resolvable(sim, v, filterBy)
    requires sim.entities[v] in sim.defaultFrames
    requires sim.defaultFrames[sim.entities[v]][v] == sim.frames[sim.entities[v]].columns[v]
    ensures GetAggregate(sim, v, filterBy).value.default == Some(GetAggregate(sim, v, filterBy).value.current)
  {
  }
}
