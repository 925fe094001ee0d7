/** `UuidModule.assignUuid`: give one created (or backfilled) entity its
    UUID, or validate the one it already has, then index it. */
module UuidAssign {
  import opened Wrappers
  import opened Host
  import opened LegacyIndex
  import opened Commit

  /** The random generator's output: `draws(k)` is the k-th UUID it hands out. */
  type Draws = nat -> string

  /** An entity without the property gets the next generated UUID; one that
      has it keeps it, unless another entity of its kind is indexed under
      its string form, which rolls the transaction back. Either way the
      entity is indexed on success. */
  function AssignUuid(property: string, draws: Draws, st: State, ref: EntityRef): (r: Run)
    requires ref in st.graph
    ensures property !in st.graph[ref] ==>
              r.outcome.Proceed? && r.state.calls == st.calls + 1
              && r.state.graph == st.graph[ref := st.graph[ref][property := Str(draws(st.calls))]]
    ensures property in st.graph[ref] ==>
              r.state.graph == st.graph && r.state.calls == st.calls
              && (r.outcome.Rollback? <==>
                    var hit := FirstHit(IndexOf(st, ref.kind), ToString(st.graph[ref][property]));
                    hit.Some? && hit.value != ref.id)
    ensures r.outcome.Rollback? ==>
              r.state == st && r.outcome.failure.AlreadyExists? && r.outcome.failure.kind == ref.kind
              && r.outcome.failure.existing != ref.id
    ensures r.outcome.Proceed? ==>
              property in r.state.graph[ref]
              && IndexOf(r.state, ref.kind)
                   == WithEntry(IndexOf(st, ref.kind), ToString(r.state.graph[ref][property]), ref.id)
              && IndexOf(r.state, Other(ref.kind)) == IndexOf(st, Other(ref.kind))
    ensures r.state.counters == st.counters
  {
    var props := st.graph[ref];
    if property !in props then
      var uuid := Str(draws(st.calls));
      var st1 := st.(graph := st.graph[ref := props[property := uuid]], calls := st.calls + 1);
      Run(Proceed, IndexEntity(st1, ref, uuid))
    else
      var id := ToString(props[property]);
      var existing := FirstHit(IndexOf(st, ref.kind), id);
      if existing.Some? && existing.value != ref.id then
        Run(Rollback(AlreadyExists(ref.kind, id, existing.value)), st)
      else
        Run(Proceed, IndexEntity(st, ref, props[property]))
  }
}
