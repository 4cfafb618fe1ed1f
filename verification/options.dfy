/** An optional value: a record field that the fixture may leave undefined,
    or a numeric result that is NaN in the dashboard. */
module Options {

  datatype Option<+T> = None | Some(value: T)
}
