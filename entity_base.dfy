/** The attributes every drawn entity carries besides its geometry. */
module EntityBase {
  import opened Types

  datatype Attrs = Attrs(layer: string, color: int, linetype: string, category: LineCategory)

  /** Layer "0", white, continuous, not yet classified. */
  const DEFAULT_ATTRS: Attrs := Attrs("0", WHITE, "CONTINUOUS", Unknown)

  /** The same attributes with another category. */
  function WithCategory(a: Attrs, c: LineCategory): (r: Attrs)
    ensures r.category == c
    ensures r.layer == a.layer && r.color == a.color && r.linetype == a.linetype
  {
    a.(category := c)
  }
}
