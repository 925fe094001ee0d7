/** `GuidModule.assignGuid`, `assignNewGuid` and `handleExistingGuid`, and
    the GUID generators they call. */
module GuidAssign {
  import opened Wrappers
  import opened Host
  import opened LegacyIndex
  import opened Commit
  import GuidSequence

  /** The GUID generators shipped with the module. */
  datatype GuidGenerator = EaioUuid | JavaUtilUuid | SequenceId

  /** The random generators' output: `draws(k)` is the k-th UUID handed out. */
  type Draws = nat -> string

  /** `replaceAll("-", "")`: the string with every hyphen removed. */
  function StripHyphens(s: string): (r: string)
    ensures '-' !in r
    ensures |r| <= |s|
    ensures forall c | c in r :: c in s
    ensures forall c | c in s && c != '-' :: c in r
    decreases |s|
  {
    if s == [] then []
    else (if s[0] == '-' then [] else [s[0]]) + StripHyphens(s[1..])
  }

  /** Stripping leaves a string without hyphens unchanged, so it is idempotent. */
  lemma {:induction false} StripHyphensKeepsHyphenFree(s: string)
    requires '-' !in s
    ensures StripHyphens(s) == s
    decreases |s|
  {
    if s != [] {
      assert '-' !in s[1..] by { assert forall c | c in s[1..] :: c in s; }
      StripHyphensKeepsHyphenFree(s[1..]);
    }
  }

  lemma StripHyphensIdempotent(s: string)
    ensures StripHyphens(StripHyphens(s)) == StripHyphens(s)
  {
    StripHyphensKeepsHyphenFree(StripHyphens(s));
  }

  /** Stripping works piece by piece: it distributes over concatenation. */
  lemma {:induction false} StripHyphensConcat(a: string, b: string)
    ensures StripHyphens(a + b) == StripHyphens(a) + StripHyphens(b)
    decreases |a|
  {
    if a != [] {
      assert (a + b)[0] == a[0];
      assert (a + b)[1..] == a[1..] + b;
      StripHyphensConcat(a[1..], b);
    } else {
      assert a + b == b;
    }
  }

  /** A hyphen between two pieces simply disappears. */
  lemma StripHyphensSeparator(a: string, b: string)
    ensures StripHyphens(a + ['-'] + b) == StripHyphens(a) + StripHyphens(b)
  {
    var hyphen: string := ['-'];
    assert StripHyphens(hyphen) == [] by {
      assert hyphen[1..] == [];
    }
    StripHyphensConcat(a + hyphen, b);
    StripHyphensConcat(a, hyphen);
  }

  /** A canonical UUID, five hyphen-free groups joined by hyphens, loses its
      four hyphens and keeps its groups in order. */
  lemma StripHyphensCanonicalUuid(g1: string, g2: string, g3: string, g4: string, g5: string)
    requires '-' !in g1 && '-' !in g2 && '-' !in g3 && '-' !in g4 && '-' !in g5
    ensures StripHyphens(g1 + ['-'] + g2 + ['-'] + g3 + ['-'] + g4 + ['-'] + g5)
            == g1 + g2 + g3 + g4 + g5
  {
    StripHyphensSeparator(g1 + ['-'] + g2 + ['-'] + g3 + ['-'] + g4, g5);
    StripHyphensSeparator(g1 + ['-'] + g2 + ['-'] + g3, g4);
    StripHyphensSeparator(g1 + ['-'] + g2, g3);
    StripHyphensSeparator(g1, g2);
    StripHyphensKeepsHyphenFree(g1);
    StripHyphensKeepsHyphenFree(g2);
    StripHyphensKeepsHyphenFree(g3);
    StripHyphensKeepsHyphenFree(g4);
    StripHyphensKeepsHyphenFree(g5);
  }

  /** `GuidGenerator.generateGuid` for the configured generator: a random
      generator hands out the next draw as a string; the sequence generator
      advances its counter and returns the number, or fails. */
  function Generate(generator: GuidGenerator, draws: Draws, initial: Long, st: State): (r: Result<(Value, State), Failure>)
    ensures r.Ok? ==> r.value.1.graph == st.graph && r.value.1.nodeIndex == st.nodeIndex
                      && r.value.1.relationshipIndex == st.relationshipIndex
    ensures generator != SequenceId ==>
              r == Ok((Str(draws(st.calls)), st.(calls := st.calls + 1)))
    ensures generator == SequenceId ==>
              var step := GuidSequence.Generate(initial, st.counters);
              (r.Err? <==> step.result.Err?)
              && (r.Ok? ==> r.value == (Num(step.result.value), st.(counters := step.counters)))
  {
    if generator == SequenceId then
      var step := GuidSequence.Generate(initial, st.counters);
      if step.result.Err? then Err(SequenceFailed)
      else Ok((Num(step.result.value), st.(counters := step.counters)))
    else Ok((Str(draws(st.calls)), st.(calls := st.calls + 1)))
  }

  /** The value `assignNewGuid` stores: a generated string loses its hyphens
      when stripping is configured; a number is stored as generated. */
  function Stored(guid: Value, stripHyphens: bool): (v: Value)
    ensures guid.Num? ==> v == guid
    ensures guid.Str? ==> v.Str? && (stripHyphens ==> '-' !in v.s) && (!stripHyphens ==> v == guid)
  {
    if guid.Str? && stripHyphens then Str(StripHyphens(guid.s)) else guid
  }

  /** An entity without the property gets a newly generated GUID; one that
      has it keeps it, unless the index lookup under its string form finds
      several entities or another entity of its kind, which rolls the
      transaction back. Either way the entity is indexed on success. */
  function AssignGuid(property: string, stripHyphens: bool, generator: GuidGenerator, draws: Draws,
                      initial: Long, st: State, ref: EntityRef): (r: Run)
    requires ref in st.graph
    ensures property !in st.graph[ref] ==>
              match Generate(generator, draws, initial, st)
              case Err(f) => r == Run(Rollback(f), st)
              case Ok(g) =>
                r.outcome.Proceed? && r.state.calls == g.1.calls && r.state.counters == g.1.counters
                && r.state.graph == st.graph[ref := st.graph[ref][property := Stored(g.0, stripHyphens)]]
    ensures property in st.graph[ref] ==>
              r.state.graph == st.graph && r.state.calls == st.calls && r.state.counters == st.counters
              && (r.outcome.Rollback? <==>
                    var hit := SingleHit(IndexOf(st, ref.kind), ToString(st.graph[ref][property]));
                    hit.Err? || (hit.value.Some? && hit.value.value != ref.id))
    ensures r.outcome.Rollback? ==> r.state == st
    ensures r.outcome.Proceed? ==>
              property in r.state.graph[ref]
              && IndexOf(r.state, ref.kind)
                   == WithEntry(IndexOf(st, ref.kind), ToString(r.state.graph[ref][property]), ref.id)
              && IndexOf(r.state, Other(ref.kind)) == IndexOf(st, Other(ref.kind))
  {
    var props := st.graph[ref];
    if property !in props then
      // assignNewGuid
      match Generate(generator, draws, initial, st)
      case Err(f) => Run(Rollback(f), st)
      case Ok(g) =>
        var guid := Stored(g.0, stripHyphens);
        var st1 := g.1.(graph := st.graph[ref := props[property := guid]]);
        Run(Proceed, IndexEntity(st1, ref, guid))
    else
      // handleExistingGuid
      var id := ToString(props[property]);
      match SingleHit(IndexOf(st, ref.kind), id)
      case Err(_) => Run(Rollback(AmbiguousLookup(id)), st)
      case Ok(existing) =>
        if existing.Some? && existing.value != ref.id then
          Run(Rollback(AlreadyExists(ref.kind, id, existing.value)), st)
        else
          Run(Proceed, IndexEntity(st, ref, props[property]))
  }
}
