/**
 * What the routers' lookups can find in the database, as sets and maps of
 * keys. Each service call the routers make before a write is one membership
 * test here; the rows themselves matter only for users.
 */
module Store {
  /** A row of `users`, as the lookups by id and by email return it. */
  datatype UserRow = UserRow(id: int, email: string, fullName: string, passwordHash: string, isAdmin: bool, isActive: bool)

  datatype Db = Db(
    projects: set<int>,
    teams: set<int>,
    technologies: set<int>,
    categories: set<int>,
    categoryNames: set<string>,
    /** status name to its id */
    statuses: map<string, int>,
    /** (version id, technology id) of every version */
    versions: set<(int, int)>,
    /** (project id, technology id) of every project–technology link */
    links: set<(int, int)>,
    /** `get_user_by_id`: every user by id */
    users: map<int, UserRow>,
    /** `get_user_by_email`: the active users by email */
    activeByEmail: map<string, UserRow>)

  /**
   * The two user lookups read one table: each active user found by email is
   * the row of its id, active, with that email.
   */
  predicate Consistent(db: Db)
  {
    forall e :: e in db.activeByEmail ==>
      db.activeByEmail[e].id in db.users && db.users[db.activeByEmail[e].id] == db.activeByEmail[e] &&
      db.activeByEmail[e].email == e && db.activeByEmail[e].isActive
  }
}
