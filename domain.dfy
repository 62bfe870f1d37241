/** The entities both report generators work on. */
module Domain {

  /** The requesting user's role. The source compares the role string with
      'ADMIN' and 'USER'; `Regular` is 'USER' and `Other` stands for every
      other value. */
  datatype Role = Admin | Regular | Other

  datatype User = User(name: string, role: Role)

  /** A line item. `priority == false` also stands for an absent flag, which
      the source reads as falsy. */
  datatype Item = Item(id: string, name: string, value: int, priority: bool)

  datatype Option<T> = None | Some(value: T)
}
