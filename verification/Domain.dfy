/**
 * The records that flow through the batch steps. Every Java reference field can be
 * null, so each is an Option; amounts (Java Double) are idealised as reals.
 */
module Domain {
  import opened Wrappers

  /** A customer row: read from the delimited file, cleaned, stored, then re-read for
      aggregation. */
  datatype Customer = Customer(
    id: Option<int>,
    firstName: Option<string>,
    lastName: Option<string>,
    email: Option<string>,
    country: Option<string>,
    purchaseAmount: Option<real>)

  /** The aggregated figures of one country. */
  datatype CountryStatistics = CountryStatistics(
    country: Option<string>,
    customerCount: int,
    totalRevenue: Option<real>,
    averagePurchaseAmount: Option<real>)

  /** A name pair of the introductory job. */
  datatype Person = Person(firstName: Option<string>, lastName: Option<string>)

  /** A Customer object whose setters the customer processor calls in place. */
  class CustomerBean {
    var id: Option<int>
    var firstName: Option<string>
    var lastName: Option<string>
    var email: Option<string>
    var country: Option<string>
    var purchaseAmount: Option<real>

    /** The record the object holds now. */
    function Value(): Customer
      reads this
    {
      Customer(id, firstName, lastName, email, country, purchaseAmount)
    }

    constructor (c: Customer)
      ensures Value() == c
    {
      id, firstName, lastName := c.id, c.firstName, c.lastName;
      email, country, purchaseAmount := c.email, c.country, c.purchaseAmount;
    }
  }

  /** A CountryStatistics object whose setters the statistics processor calls in place. */
  class StatisticsBean {
    var country: Option<string>
    var customerCount: int
    var totalRevenue: Option<real>
    var averagePurchaseAmount: Option<real>

    /** The record the object holds now. */
    function Value(): CountryStatistics
      reads this
    {
      CountryStatistics(country, customerCount, totalRevenue, averagePurchaseAmount)
    }

    constructor (s: CountryStatistics)
      ensures Value() == s
    {
      country, customerCount := s.country, s.customerCount;
      totalRevenue, averagePurchaseAmount := s.totalRevenue, s.averagePurchaseAmount;
    }
  }
}
