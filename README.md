# jwsrequests request builder, in Dafny

This project models the request builder of `ec.jwsrequests.Requests`. The
builder turns a seasonal-adjustment processing (an ordered list of items, each
with an estimation specification and a time series) into an XML batch-request
document for one estimation family, X13 or TRAMO-SEATS. It keeps the items
whose specification belongs to that family and appends one atomic request per
kept item, holding the rendered specification and the rendered series. It
returns `null` when nothing matched. Otherwise it sets the rendered processing
context and fills the output filter from the configuration's `Matrix` and
`TSMatrix` arrays.

Files:

- `toolkit.dfy` (module `Toolkit`): the toolkit's values. Specifications,
  series and the processing context are abstract types. The runtime class of a
  specification is the datatype `EstimationSpecification`. A processing is a
  `seq<SaItem>`. `WsaConfig` holds the two optional filter arrays.
- `xml.dfy` (module `Xml`): the document model. The rendered values are
  abstract types. The marshallers are function values bundled in
  `Marshallers`. The JAXB live lists are the class `JList`, with `Add` and
  `AddAll`. The two document classes are one generic class, `XmlRequests<S>`.
  Its ghost field `contextWrites` counts the calls of `SetContext`.
- `requests.dfy` (module `Requests`): the builders and `fillFilter`, the
  functions that specify them, and the lemmas.

The source has two builders that are identical apart from the family: the
specification class tested, its marshaller and the document types. Here they share one generic
method, `CreateRequests`. It is parameterised by the family's
`instanceof`-and-cast (`AsX13` or `AsTramoSeats`) and by the family's
specification marshaller. `CreateX13Requests` and `CreateTramoSeatsRequests`
instantiate it. The private helper `context` only applies the context
marshaller, so the builders apply `marshalContext` directly, once.

The builders' result is specified through three functions:

- `Requests` is the item list, item by item in iteration order. It is the
  loop invariant.
- `MatchIndices` is an independent reference: the positions of the matching
  items.
- `OutputFilter` is `Matrix` followed by `TSMatrix`, with a `null` array
  omitted.

## Model

| member | source | states |
|---|---|---|
| `Requests.AsX13` | src/main/java/ec/jwsrequests/Requests.java:67-71 | the `instanceof X13Specification` test and cast: succeeds exactly on X13 specifications and yields that same specification |
| `Requests.AsTramoSeats` | src/main/java/ec/jwsrequests/Requests.java:91-95 | the `instanceof TramoSeatsSpecification` test and cast: succeeds exactly on TRAMO-SEATS specifications and yields that same specification |
| `Requests.ItemRequests` | src/main/java/ec/jwsrequests/Requests.java:67-77 | one loop step contributes at most one request, and exactly one when the item's specification passes the family test |
| `Requests.Requests` | src/main/java/ec/jwsrequests/Requests.java:66-78 | the item list the loop builds, step by step in iteration order; it never holds more requests than the processing has items |
| `Requests.OutputFilter` | src/main/java/ec/jwsrequests/Requests.java:111-118 | what `fillFilter` appends: its length is the sum of the lengths of the non-null arrays, and a name is in it if and only if it is in a non-null `Matrix` or `TSMatrix` |
| `Xml.JList.constructor` | src/main/java/ec/jwsrequests/Requests.java:65 | the lists behind `getItems()` and `getOutputFilter()` of a new document start empty |
| `Requests.MatchIndices` | src/main/java/ec/jwsrequests/Requests.java:66-67 | the selected positions are in range, strictly increasing (iteration order), and each holds a specification the family test accepts |
| `Requests.MatchIndicesComplete` | src/main/java/ec/jwsrequests/Requests.java:66-67 | an item is selected if and only if its specification passes the family's `instanceof` test |
| `Requests.RequestsAtMatches` | src/main/java/ec/jwsrequests/Requests.java:66-77 | the item list has exactly one entry per matching item; the k-th entry holds the rendered specification and rendered series of the k-th matching item |
| `Requests.NoMatchIffNoRequests` | src/main/java/ec/jwsrequests/Requests.java:79-81 | the item list is empty if and only if no item's specification belongs to the family |
| `Requests.SelectionByFamily` | src/main/java/ec/jwsrequests/Requests.java:66-101 | the X13 builder selects exactly the X13 items and the TRAMO-SEATS builder exactly the TRAMO-SEATS items; an item of the other family is never selected |
| `Requests.FamiliesPartition` | src/main/java/ec/jwsrequests/Requests.java:63-109 | the two builders' selections from one processing are disjoint, together cover at most all items, and exactly all of them when no specification is of a third kind |
| `Requests.CreateRequests` | src/main/java/ec/jwsrequests/Requests.java:63-85 | returns `null` if and only if no item matches; otherwise a fresh document whose items are `Requests(processing)`, whose context is the rendered context set exactly once, and whose filter is `OutputFilter(config)`; the loop keeps the counter `n` equal to the item list's length |
| `Requests.CreateX13Requests` | src/main/java/ec/jwsrequests/Requests.java:63-85 | `null` if and only if no item has an X13 specification; otherwise the document of X13 requests, context and filter as for `CreateRequests` |
| `Requests.CreateTramoSeatsRequests` | src/main/java/ec/jwsrequests/Requests.java:87-109 | `null` if and only if no item has a TRAMO-SEATS specification; otherwise the document of TRAMO-SEATS requests, context and filter as for `CreateRequests` |
| `Requests.FillFilter` | src/main/java/ec/jwsrequests/Requests.java:111-118 | the list afterwards is its old contents followed by `OutputFilter(config)`; with both arrays `null` it is unchanged |
| `Requests.OutputFilterLayout` | src/main/java/ec/jwsrequests/Requests.java:111-118 | the filter's length is the sum of the two arrays' lengths; its entries are `Matrix`'s in order, then `TSMatrix`'s in order, with no deduplication or reordering |
| `Requests.OutputFilterCases` | src/main/java/ec/jwsrequests/Requests.java:111-118 | both arrays present gives `Matrix ++ TSMatrix`; only one present gives that one; both `null` gives the empty filter |
| `Requests.MixedProcessingExample` | src/main/java/ec/jwsrequests/Requests.java:63-118 | with items X13, TRAMO-SEATS, X13, the X13 document holds the first and third and the TRAMO-SEATS document the second; `Matrix = [m1, m2]`, `TSMatrix = [t1]` give the filter `[m1, m2, t1]` |
| `Xml.XmlRequests.constructor` | src/main/java/ec/jwsrequests/Requests.java:65 | a new document has no context, an empty output filter and no items, held in two distinct fresh lists |
| `Xml.XmlRequests.SetContext` | src/main/java/ec/jwsrequests/Requests.java:82 | sets the context and counts one more write |
| `Xml.JList.Add` | src/main/java/ec/jwsrequests/Requests.java:76 | appends the request at the end of the item list |
| `Xml.JList.AddAll` | src/main/java/ec/jwsrequests/Requests.java:113 | appends every entry of the array, in order |

## Left out

- `writeX13` and `writeTramoSeats` (file output, UTF-8 writer, JAXB marshalling, any exception mapped to `false`). They are I/O and foreign library calls.
- The static `JAXBContext` initialisation. A failure there is a class-load error, outside the builders.
- The marshallers' internals and the classes `SaItem`, `SaProcessing`, `ProcessingContext` and `WsaConfig`. These are foreign code. The marshallers are total function parameters. An exception thrown by one of them, which would propagate out of a builder, is not modelled.
- `null` items in the processing, and a `null` processing. The source throws `NullPointerException` on them, at the item's getter or at the for-each (lines 66 and 90). The model's processing and its items are always present.
- A `null` configuration. The source throws `NullPointerException` on it only when at least one item matches, because `fillFilter` reads `config.Matrix` after the `n == 0` return. With no matching item the source returns `null` normally. The model's `WsaConfig` is never `null`, so it does not cover that call.
- `null` entries inside `Matrix` or `TSMatrix`. `Arrays.asList` copies them into the filter (lines 113 and 116). A `seq<string>` cannot hold them.
- Atomic requests are values (`AtomicRequest`), not objects. The source fills each one through setters before adding it and never touches it again.
- `WsaConfig` fields other than `Matrix` and `TSMatrix`. The builders do not read them.
