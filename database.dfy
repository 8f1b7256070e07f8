/**
 * The persistent state the handlers read and write: one table per model.
 * A handler loads a row (a `Task` value), changes its copy and writes it back,
 * which is what a Django model instance does between `get` and `save`.
 */
module Database {
  import opened Basics
  import opened TaskModels
  import opened FinancialModels

  class Db {
    /** Tasks, keyed by their title (the views' lookup field). */
    var tasks: map<string, Task>
    var payments: seq<Payment>
    var costItems: seq<CostItem>
    var activities: seq<Activity>
    /** Expenditure requests, keyed by primary key. */
    var expenditures: map<nat, ExpenditureRequest>
    var users: map<nat, User>
    /** Workshop locations: primary key to name. */
    var locations: map<nat, string>

    constructor (users: map<nat, User>, locations: map<nat, string>)
      ensures this.users == users && this.locations == locations
      ensures tasks == map[] && payments == [] && costItems == [] && activities == []
      ensures expenditures == map[]
    {
      this.users := users;
      this.locations := locations;
      tasks := map[];
      payments := [];
      costItems := [];
      activities := [];
      expenditures := map[];
    }
  }
}
