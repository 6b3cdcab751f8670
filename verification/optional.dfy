/** A nullable value: `None` stands for a NULL pointer or an absent map entry. */
module Optional {

  datatype Option<+T> = None | Some(value: T)

}
