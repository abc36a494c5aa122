/** Values shared by the adapters: Go's `interface{}` key/value elements and
    the optional results (`error`, nil-able pointers) of the logging API. */
module KitValues {

  datatype Option<+T> = None | Some(value: T)

  /** The four levels of the go-kit `level` package. */
  datatype KitLevel = Debug | Info | Warn | Error

  /** An element of a key/value list (`...interface{}`). Level values are
      pointers in the `level` package, so they compare equal only to
      themselves: a string "error" is never a level value. Any other
      value is an opaque token compared by identity. */
  datatype Value = Str(s: string) | LevelValue(level: KitLevel) | Opaque(id: nat)

  /** `level.Key()`: the key the `level` package puts in front of its value. */
  const LevelKey: Value := Str("level")
}
