/**
  The request builders: from a processing, select the items whose estimation
  specification belongs to one family, render each into an atomic request,
  and, when at least one matched, attach the rendered context and the output
  filter taken from the configuration.

  The two builders of the source differ only in the family they select, so
  the model has one generic builder, `CreateRequests`, parameterised by the
  family's `instanceof`-and-cast (`cast`) and by its specification marshaller,
  and two thin instances, `CreateX13Requests` and `CreateTramoSeatsRequests`.
 */
module Requests {
  import opened Toolkit
  import opened Xml

  // ---------------------------------------------------------------------------
  // Family selection

  /**
    `spec instanceof X13Specification`, followed by the cast: it succeeds
    exactly on X13 specifications and then yields that very specification.
   */
  function AsX13(spec: EstimationSpecification): (r: Option<X13Specification>)
    ensures r.Some? <==> spec.X13Spec?
    ensures r.Some? ==> spec == X13Spec(r.value)
  {
    if spec.X13Spec? then Some(spec.x13) else None
  }

  /**
    `spec instanceof TramoSeatsSpecification`, followed by the cast: it
    succeeds exactly on TRAMO-SEATS specifications and then yields that very
    specification.
   */
  function AsTramoSeats(spec: EstimationSpecification): (r: Option<TramoSeatsSpecification>)
    ensures r.Some? <==> spec.TramoSeatsSpec?
    ensures r.Some? ==> spec == TramoSeatsSpec(r.value)
  {
    if spec.TramoSeatsSpec? then Some(spec.tramoSeats) else None
  }

  /**
    Reference definition of the selection: the positions in `processing` of
    the items whose specification `cast` accepts, in increasing order.
   */
  function MatchIndices<T>(processing: SaProcessing, cast: EstimationSpecification -> Option<T>): (r: seq<nat>)
    ensures forall k :: 0 <= k < |r| ==> r[k] < |processing| && cast(processing[r[k]].spec).Some?
    ensures forall j, k :: 0 <= j < k < |r| ==> r[j] < r[k]
  {
    if processing == [] then []
    else
      var last := |processing| - 1;
      MatchIndices(processing[..last], cast) + (if cast(processing[last].spec).Some? then [last] else [])
  }

  // ---------------------------------------------------------------------------
  // What a builder produces

  /** The requests one item contributes: one if `cast` accepts its specification, none otherwise. */
  function ItemRequests<T, S>(item: SaItem, cast: EstimationSpecification -> Option<T>,
                              marshalSpec: T -> S, marshalTs: Ts -> XmlTs): (r: seq<AtomicRequest<S>>)
    ensures |r| <= 1
    ensures |r| == 1 <==> cast(item.spec).Some?
  {
    match cast(item.spec)
    case Some(spec) => [AtomicRequest(marshalSpec(spec), marshalTs(item.ts))]
    case None => []
  }

  /** The item list of the document built from `processing`, item by item in iteration order. */
  function Requests<T, S>(processing: SaProcessing, cast: EstimationSpecification -> Option<T>,
                          marshalSpec: T -> S, marshalTs: Ts -> XmlTs): (r: seq<AtomicRequest<S>>)
    ensures |r| <= |processing|
  {
    if processing == [] then []
    else
      var last := |processing| - 1;
      Requests(processing[..last], cast, marshalSpec, marshalTs)
        + ItemRequests(processing[last], cast, marshalSpec, marshalTs)
  }

  /**
    The output filter a configuration asks for: `Matrix`, then `TSMatrix`,
    each only when not `null`. Every entry of a present array is kept, so the
    filter holds no more and no fewer names than the two arrays.
   */
  function OutputFilter(config: WsaConfig): (r: seq<string>)
    ensures |r| == (if config.matrix.Some? then |config.matrix.value| else 0)
                 + (if config.tsMatrix.Some? then |config.tsMatrix.value| else 0)
    ensures forall s :: s in r <==>
      ((config.matrix.Some? && s in config.matrix.value) || (config.tsMatrix.Some? && s in config.tsMatrix.value))
  {
    (if config.matrix.Some? then config.matrix.value else [])
      + (if config.tsMatrix.Some? then config.tsMatrix.value else [])
  }

  // ---------------------------------------------------------------------------
  // The operations

  /** Appends `Matrix` and then `TSMatrix` to `filter` in place, skipping whichever is `null`. */
  method FillFilter(config: WsaConfig, filter: JList<string>)
    modifies filter
    ensures filter.elems == old(filter.elems) + OutputFilter(config)
  {
    if config.matrix.Some? {
      filter.AddAll(config.matrix.value);
    }
    if config.tsMatrix.Some? {
      filter.AddAll(config.tsMatrix.value);
    }
  }

  /**
    The shared body of both builders. Returns `null` when no item of the
    family is present; otherwise a new document whose items are the rendered
    matching items in order, whose context is set exactly once, and whose
    filter is the configuration's output filter.
   */
  method CreateRequests<T, S>(config: WsaConfig, processing: SaProcessing, context: ProcessingContext,
                              cast: EstimationSpecification -> Option<T>, marshalSpec: T -> S,
                              marshalTs: Ts -> XmlTs, marshalContext: ProcessingContext -> XmlProcessingContext)
    returns (doc: XmlRequests?<S>)
    ensures doc == null <==> forall i :: 0 <= i < |processing| ==> cast(processing[i].spec).None?
    ensures doc != null ==> fresh(doc) && fresh(doc.items) && fresh(doc.outputFilter) && doc.Valid()
    ensures doc != null ==> doc.items.elems == Requests(processing, cast, marshalSpec, marshalTs)
    ensures doc != null ==> doc.context == Some(marshalContext(context)) && doc.contextWrites == 1
    ensures doc != null ==> doc.outputFilter.elems == OutputFilter(config)
  {
    var n := 0;
    var r := new XmlRequests<S>();
    for i := 0 to |processing|
      invariant n == |r.items.elems|
      invariant r.items.elems == Requests(processing[..i], cast, marshalSpec, marshalTs)
      invariant r.context == None && r.contextWrites == 0 && r.outputFilter.elems == []
    {
      var item := processing[i];
      assert processing[..i + 1][..i] == processing[..i];
      match cast(item.spec)
      case Some(spec) =>
        n := n + 1;
        var xcur := AtomicRequest(marshalSpec(spec), marshalTs(item.ts));
        r.items.Add(xcur);
      case None =>
    }
    assert processing[..|processing|] == processing;
    NoMatchIffNoRequests(processing, cast, marshalSpec, marshalTs);
    if n == 0 {
      return null;
    }
    r.SetContext(marshalContext(context));
    FillFilter(config, r.outputFilter);
    doc := r;
  }

  /** `createX13Requests`: the builder for the X13 family. */
  method CreateX13Requests(config: WsaConfig, processing: SaProcessing, context: ProcessingContext, m: Marshallers)
    returns (doc: XmlRequests?<XmlX13Specification>)
    ensures doc == null <==> forall i :: 0 <= i < |processing| ==> !processing[i].spec.X13Spec?
    ensures doc != null ==> fresh(doc) && fresh(doc.items) && fresh(doc.outputFilter) && doc.Valid()
    ensures doc != null ==> doc.items.elems == Requests(processing, AsX13, m.x13, m.ts)
    ensures doc != null ==> doc.context == Some(m.context(context)) && doc.contextWrites == 1
    ensures doc != null ==> doc.outputFilter.elems == OutputFilter(config)
  {
    doc := CreateRequests(config, processing, context, AsX13, m.x13, m.ts, m.context);
  }

  /** `createTramoSeatsRequests`: the builder for the TRAMO-SEATS family. */
  method CreateTramoSeatsRequests(config: WsaConfig, processing: SaProcessing, context: ProcessingContext, m: Marshallers)
    returns (doc: XmlRequests?<XmlTramoSeatsSpecification>)
    ensures doc == null <==> forall i :: 0 <= i < |processing| ==> !processing[i].spec.TramoSeatsSpec?
    ensures doc != null ==> fresh(doc) && fresh(doc.items) && fresh(doc.outputFilter) && doc.Valid()
    ensures doc != null ==> doc.items.elems == Requests(processing, AsTramoSeats, m.tramoSeats, m.ts)
    ensures doc != null ==> doc.context == Some(m.context(context)) && doc.contextWrites == 1
    ensures doc != null ==> doc.outputFilter.elems == OutputFilter(config)
  {
    doc := CreateRequests(config, processing, context, AsTramoSeats, m.tramoSeats, m.ts, m.context);
  }

  // ---------------------------------------------------------------------------
  // Properties of the selection

  /** An item is selected exactly when `cast` accepts its specification. */
  lemma {:induction false} MatchIndicesComplete<T>(processing: SaProcessing, cast: EstimationSpecification -> Option<T>, i: nat)
    requires i < |processing|
    ensures i in MatchIndices(processing, cast) <==> cast(processing[i].spec).Some?
  {
    var last := |processing| - 1;
    if i < last {
      MatchIndicesComplete(processing[..last], cast, i);
    }
  }

  /**
    The k-th request is the rendered specification and series of the k-th
    matching item, and there are as many requests as matching items.
   */
  lemma {:induction false} RequestsAtMatches<T, S>(processing: SaProcessing, cast: EstimationSpecification -> Option<T>,
                                                   marshalSpec: T -> S, marshalTs: Ts -> XmlTs)
    ensures var rs, ix := Requests(processing, cast, marshalSpec, marshalTs), MatchIndices(processing, cast);
      |rs| == |ix| &&
      forall k :: 0 <= k < |rs| ==>
        rs[k] == AtomicRequest(marshalSpec(cast(processing[ix[k]].spec).value), marshalTs(processing[ix[k]].ts))
  {
    if processing != [] {
      var last := |processing| - 1;
      var prefix := processing[..last];
      RequestsAtMatches(prefix, cast, marshalSpec, marshalTs);
      var ix := MatchIndices(prefix, cast);
      assert forall k :: 0 <= k < |ix| ==> prefix[ix[k]] == processing[ix[k]];
    }
  }

  /** No request is produced exactly when no item's specification belongs to the family. */
  lemma {:induction false} NoMatchIffNoRequests<T, S>(processing: SaProcessing, cast: EstimationSpecification -> Option<T>,
                                   marshalSpec: T -> S, marshalTs: Ts -> XmlTs)
    ensures Requests(processing, cast, marshalSpec, marshalTs) == []
        <==> forall i :: 0 <= i < |processing| ==> cast(processing[i].spec).None?
  {
    RequestsAtMatches(processing, cast, marshalSpec, marshalTs);
    var ix := MatchIndices(processing, cast);
    if ix != [] {
      assert cast(processing[ix[0]].spec).Some?;
    } else {
      forall i | 0 <= i < |processing|
        ensures cast(processing[i].spec).None?
      {
        MatchIndicesComplete(processing, cast, i);
      }
    }
  }

  /**
    The X13 builder selects exactly the items with an X13 specification and
    the TRAMO-SEATS builder exactly those with a TRAMO-SEATS specification.
   */
  lemma SelectionByFamily(processing: SaProcessing, i: nat)
    requires i < |processing|
    ensures i in MatchIndices(processing, AsX13) <==> processing[i].spec.X13Spec?
    ensures i in MatchIndices(processing, AsTramoSeats) <==> processing[i].spec.TramoSeatsSpec?
  {
    MatchIndicesComplete(processing, AsX13, i);
    MatchIndicesComplete(processing, AsTramoSeats, i);
  }

  /**
    The two builders draw disjoint subsets from one processing: no item is
    selected by both, together they select at most every item, and exactly
    every item when no specification is of a third kind.
   */
  lemma {:induction false} FamiliesPartition(processing: SaProcessing)
    ensures forall i :: i in MatchIndices(processing, AsX13) ==> i !in MatchIndices(processing, AsTramoSeats)
    ensures |MatchIndices(processing, AsX13)| + |MatchIndices(processing, AsTramoSeats)| <= |processing|
    ensures (forall i :: 0 <= i < |processing| ==> !processing[i].spec.OtherSpec?) ==>
      |MatchIndices(processing, AsX13)| + |MatchIndices(processing, AsTramoSeats)| == |processing|
  {
    if processing != [] {
      var last := |processing| - 1;
      FamiliesPartition(processing[..last]);
    }
    forall i | i in MatchIndices(processing, AsX13)
      ensures i !in MatchIndices(processing, AsTramoSeats)
    {
      SelectionByFamily(processing, i);
    }
  }

  // ---------------------------------------------------------------------------
  // Properties of the output filter

  /**
    The filter is `Matrix` followed by `TSMatrix`, entry for entry: nothing is
    dropped, merged or reordered, and a `null` array contributes nothing.
   */
  lemma OutputFilterLayout(config: WsaConfig)
    ensures var f := OutputFilter(config);
      var lm := if config.matrix.Some? then |config.matrix.value| else 0;
      (config.matrix.Some? ==> forall k :: 0 <= k < lm ==> f[k] == config.matrix.value[k]) &&
      (config.tsMatrix.Some? ==> forall k :: 0 <= k < |config.tsMatrix.value| ==> f[lm + k] == config.tsMatrix.value[k])
  {
  }

  /** The four cases of the two optional arrays. */
  lemma OutputFilterCases(config: WsaConfig)
    ensures config.matrix.Some? && config.tsMatrix.Some? ==>
      OutputFilter(config) == config.matrix.value + config.tsMatrix.value
    ensures config.matrix.Some? && config.tsMatrix.None? ==> OutputFilter(config) == config.matrix.value
    ensures config.matrix.None? && config.tsMatrix.Some? ==> OutputFilter(config) == config.tsMatrix.value
    ensures config.matrix.None? && config.tsMatrix.None? ==> OutputFilter(config) == []
  {
  }

  // ---------------------------------------------------------------------------
  // A worked instance

  /**
    Two X13 items around one TRAMO-SEATS item, with `Matrix = [m1, m2]` and
    `TSMatrix = [t1]`: the X13 document holds the first and third items, the
    TRAMO-SEATS document the second, and both carry the filter `[m1, m2, t1]`.
   */
  lemma MixedProcessingExample(a1: X13Specification, a2: X13Specification, b: TramoSeatsSpecification,
                               s1: Ts, s2: Ts, s3: Ts, m: Marshallers)
    ensures var p := [SaItem(X13Spec(a1), s1), SaItem(TramoSeatsSpec(b), s2), SaItem(X13Spec(a2), s3)];
      Requests(p, AsX13, m.x13, m.ts) == [AtomicRequest(m.x13(a1), m.ts(s1)), AtomicRequest(m.x13(a2), m.ts(s3))] &&
      Requests(p, AsTramoSeats, m.tramoSeats, m.ts) == [AtomicRequest(m.tramoSeats(b), m.ts(s2))]
    ensures OutputFilter(WsaConfig(Some(["m1", "m2"]), Some(["t1"]))) == ["m1", "m2", "t1"]
  {
    var p := [SaItem(X13Spec(a1), s1), SaItem(TramoSeatsSpec(b), s2), SaItem(X13Spec(a2), s3)];
    assert p[..2][..1] == p[..1];
    assert p[..1][..0] == [];
    assert Requests(p[..1], AsX13, m.x13, m.ts) == [AtomicRequest(m.x13(a1), m.ts(s1))];
    assert Requests(p[..2], AsX13, m.x13, m.ts) == [AtomicRequest(m.x13(a1), m.ts(s1))];
    assert Requests(p[..1], AsTramoSeats, m.tramoSeats, m.ts) == [];
    assert Requests(p[..2], AsTramoSeats, m.tramoSeats, m.ts) == [AtomicRequest(m.tramoSeats(b), m.ts(s2))];
  }
}
