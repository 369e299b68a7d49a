/**
  The XML-bindable document model the builders fill: the rendered
  specification, series and context are abstract values produced by the
  toolkit's marshallers; the request documents and their live lists are
  objects, because the builders update them in place.
 */
module Xml {
  import opened Toolkit

  type XmlX13Specification
  type XmlTramoSeatsSpecification
  type XmlTs
  type XmlProcessingContext

  /**
    The toolkit's marshallers, each a conversion from a native value to its
    XML form. They are foreign code, so the builders take them as parameters.
   */
  datatype Marshallers = Marshallers(
    x13: X13Specification -> XmlX13Specification,
    tramoSeats: TramoSeatsSpecification -> XmlTramoSeatsSpecification,
    ts: Ts -> XmlTs,
    context: ProcessingContext -> XmlProcessingContext)

  /** One atomic request: a rendered specification of kind `S` and a rendered series. */
  datatype AtomicRequest<S> = AtomicRequest(specification: S, series: XmlTs)

  /** A mutable list, as returned by the JAXB getters; `elems` is its contents. */
  class JList<E> {
    var elems: seq<E>

    constructor ()
      ensures elems == []
    {
      elems := [];
    }

    /** `List.add`: appends one element. */
    method Add(e: E)
      modifies this
      ensures elems == old(elems) + [e]
    {
      elems := elems + [e];
    }

    /** `List.addAll`: appends every element of `es`, in order. */
    method AddAll(es: seq<E>)
      modifies this
      ensures elems == old(elems) + es
    {
      elems := elems + es;
    }
  }

  /**
    A batch-request document (`XmlX13Requests` when `S` is the X13
    specification's XML form, `XmlTramoSeatsRequests` for TRAMO-SEATS): a
    context, an output filter and the atomic requests. `contextWrites` counts
    the calls of `SetContext`.
   */
  class XmlRequests<S> {
    var context: Option<XmlProcessingContext>
    const outputFilter: JList<string>
    const items: JList<AtomicRequest<S>>
    ghost var contextWrites: nat

    /** The two lists are distinct objects. */
    ghost predicate Valid()
      reads this
    {
      items as object != outputFilter as object
    }

    /** A new document has no context, an empty filter and no items. */
    constructor ()
      ensures Valid() && fresh(items) && fresh(outputFilter)
      ensures context == None && contextWrites == 0
      ensures outputFilter.elems == [] && items.elems == []
    {
      context := None;
      outputFilter := new JList();
      items := new JList();
      contextWrites := 0;
    }

    method SetContext(c: XmlProcessingContext)
      modifies this
      ensures context == Some(c) && contextWrites == old(contextWrites) + 1
    {
      context := Some(c);
      contextWrites := contextWrites + 1;
    }
  }
}
