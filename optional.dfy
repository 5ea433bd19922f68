/** The source's `None` for a missing price, status, z-score or mark-to-market value. */
module Optional {

  datatype Option<+T> = None | Some(value: T)

}
