/** The absent-or-present value that stands for JavaScript's `null` results
    (`querySelector` finding nothing, a regular expression not matching). */
module Optional {

  datatype Option<+T> = None | Some(value: T)

  function Min(a: int, b: int): int
  {
    if a <= b then a else b
  }
}
