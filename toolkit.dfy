/**
  The seasonal-adjustment toolkit's side of the boundary: the values the
  request builder reads. Their internals belong to the toolkit and are not
  part of this model, so they are abstract types; the model only asks of a
  processing item which specification family it carries.
 */
module Toolkit {

  /** Java's nullable reference, for values the source tests against `null`. */
  datatype Option<T> = None | Some(value: T)

  /** The specification classes of the two estimation methods. */
  type X13Specification
  type TramoSeatsSpecification
  /** Any other estimation specification the toolkit can attach to an item. */
  type OtherSpecification
  /** A time series (observations and metadata). */
  type Ts
  /** Shared processing metadata: calendars, variables. */
  type ProcessingContext

  /**
    The runtime class of an item's estimation specification, as the builders'
    `instanceof` tests see it. `OtherSpec` stands for every other class, and
    for `null`, which is an instance of neither.
   */
  datatype EstimationSpecification =
    | X13Spec(x13: X13Specification)
    | TramoSeatsSpec(tramoSeats: TramoSeatsSpecification)
    | OtherSpec(other: OtherSpecification)

  /** One item of a processing: its estimation specification and its series. */
  datatype SaItem = SaItem(spec: EstimationSpecification, ts: Ts)

  /** A processing is iterated in order; it is modelled as the sequence of its items. */
  type SaProcessing = seq<SaItem>

  /**
    The part of the cruncher's configuration the builders read: the two
    optional output-filter arrays (`null` when absent).
   */
  datatype WsaConfig = WsaConfig(matrix: Option<seq<string>>, tsMatrix: Option<seq<string>>)
}
