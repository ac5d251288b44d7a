/** The records the booking screen reads from the API (src/lib/types.ts), and JavaScript truthiness. */
module Types {

  /** A value that may be absent: `null`/`undefined` in the source. */
  datatype Option<+T> = None | Some(value: T)

  /** A service on offer. `price` arrives as a number and is only ever formatted for display. */
  datatype Service = Service(id: int, name: string, price: real, avgDuration: int, isActive: bool)

  datatype Role = Admin | BarberRole

  /** A staff member; the booking screen lists the users whose role is barber. */
  datatype User = User(id: int, username: string, name: string, role: Role, isOnline: bool)

  /** JavaScript truthiness of a `number | null`: `null` and the number 0 are falsy. */
  predicate Truthy(x: Option<int>) {
    x.Some? && x.value != 0
  }
}
