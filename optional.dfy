/** Absence of a value. Ruby answers `nil` for a missing key; the stores of
    this library also treat a stored `nil` or `false` as a miss (they test
    results with `||`), so the model keeps only truthy values and writes a
    miss as `None`. */
module Optional {

  datatype Option<+T> = None | Some(value: T)

}
