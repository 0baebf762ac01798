/** The shipping enumerations. */
module Enums {

  /** A carrier that can ship a package. */
  datatype Provider = Ups | Fedex | Usps | Internal

  /**
   * The state of a shipment. `Pending` is not among the members the enumeration declares,
   * but the order and internal routers store and compare it, so the model includes it.
   */
  datatype Status = Pending | Shipped | InTransit | Delivered | Exception

  /** A service level agreement: the promised delivery speed. */
  datatype Sla = Standard | Express | Overnight | SameDay
}
