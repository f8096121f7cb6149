/** The stored user record, with the fields the user controller reads or writes. */
module UserModel {

  /** The closed set of roles a user record can hold ("user", "admin"). */
  datatype Role = RegularUser | Admin

  /** One user document. `passwordHash` is opaque here: the controller never
      computes or compares it, it only has to leave it alone. */
  datatype User = User(
    id: string,
    username: string,
    email: string,
    role: Role,
    active: bool,
    passwordHash: string,
    savedDrinks: seq<string>)
}
