/** The records of src/types/index.ts that the session and routing logic use. */
module Types {
  import opened Wrappers

  /** `UserRole = 'hr' | 'employee'` */
  datatype UserRole = Hr | Employee

  /** `User`: the identity held in memory and in the `helix_user` storage slot.
      `department` is optional in the record type; `createdAt` is an ISO-8601
      timestamp string supplied by the clock. */
  datatype User = User(
    id: string,
    email: string,
    role: UserRole,
    name: string,
    department: Option<string>,
    createdAt: string)
}
