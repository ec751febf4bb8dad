/** The domain shapes of src/types/index.ts. Dates are abstract integer instants. */
module Types {

  datatype Option<+T> = None | Some(value: T) {
    /** `x ?? default` */
    function GetOr(default: T): T {
      if Some? then value else default
    }
  }

  datatype Result<+T, +E> = Success(value: T) | Failure(error: E)

  /** A point in time (a JavaScript `Date`), e.g. milliseconds since an epoch. */
  type Instant = int

  /** The four payment models a hospital can be configured with. */
  datatype PaymentModel = Fixed | PerPatient | Mixed | Detailed

  /** One billable service line of a `detailed` hospital. */
  datatype ItemRate = ItemRate(id: string, name: string, rate: real)

  datatype Hospital = Hospital(
    id: string,
    name: string,
    paymentModel: PaymentModel,
    fixedRate: real,
    perPatientRate: real,
    fixedSalary: Option<real>,
    itemRates: Option<seq<ItemRate>>,
    color: Option<string>,
    createdAt: Instant,
    updatedAt: Instant)

  datatype Shift = Shift(
    id: string,
    hospitalId: string,
    date: Instant,
    startTime: string,
    endTime: string,
    casesCount: int,
    proceduresCount: int,
    includesOutpatient: bool,
    notes: Option<string>,
    customRate: Option<real>,
    itemCounts: Option<map<string, int>>,
    totalEarnings: real,
    createdAt: Instant,
    updatedAt: Instant)
}
