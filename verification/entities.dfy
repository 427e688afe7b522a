/** The values the session store holds: user records, the faults its reads can raise,
    and the text encoding it persists users with. */
module Entities {

  datatype Option<T> = None | Some(value: T)

  /** The two JavaScript exceptions the store lets escape to its caller. */
  datatype Fault =
    | SyntaxError  // the persisted user text does not parse
    | TypeError    // a logged-in user record carries no department

  datatype Result<T> = Ok(value: T) | Err(fault: Fault) {
    predicate IsFailure() {
      Err?
    }

    function PropagateFailure<U>(): Result<U>
      requires Err?
    {
      Err(fault)
    }

    function Extract(): T
      requires Ok?
    {
      value
    }
  }

  /** Identifiers as the application compares them: a user's uid, a department's leader. */
  type Id = int

  datatype Department = Department(name: string, leader: Id)

  /** A user record. The two attributes the permission rule reads are explicit
      (None when the record lacks them); `others` names every further attribute.
      The explicit fields alone decide `uid` and `department`: a "uid" or "department"
      listed in `others` stands for nothing more, and only makes the record non-empty. */
  datatype User = User(uid: Option<Id>, department: Option<Department>, others: set<string>)

  /** The empty object `{}` the store starts from and resets to. */
  const EMPTY_USER: User := User(None, None, {})

  /** True iff the record has no attribute at all. */
  predicate IsEmpty(u: User) {
    u.uid.None? && u.department.None? && u.others == {}
  }

  /** The text encoding used for persisted users: `encode` stands for JSON.stringify,
      `decode` for JSON.parse, with None for text that does not parse to a user object. */
  datatype Codec = Codec(encode: User -> string, decode: string -> Option<User>)

  /** What the store relies on JSON for: a serialised user is never the empty string,
      and parsing it gives the same user back. */
  ghost predicate ValidCodec(c: Codec) {
    forall u: User :: c.encode(u) != "" && c.decode(c.encode(u)) == Some(u)
  }
}
