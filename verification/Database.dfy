/** The tables as one mutable object, which the services update statement by statement. */
module Database {
  import opened Tables

  class Postgres {
    var db: Db

    constructor (db: Db)
      ensures this.db == db
    {
      this.db := db;
    }
  }
}
