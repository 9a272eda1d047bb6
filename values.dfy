/** Small value types shared by the account core: an optional value and the
    variant values that travel in parameter maps (Qt's QVariant / QVariantMap). */
module Values {

  datatype Option<+T> = None | Some(value: T)

  /** The kinds of variant value the account core passes through unchanged. */
  datatype Value = IntValue(i: int) | TextValue(text: string) | BoolValue(b: bool)

  /** A parameter map, keyed by parameter name (QVariantMap). */
  type Parameters = map<string, Value>
}
