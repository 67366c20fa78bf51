/**
 * Small value types shared by every resource module: an Option for Go's nil-able
 * pointers, the presence markers the device API uses for boolean toggles, and the
 * diagnostics a CRUD callback hands back to Terraform.
 */
module Common {

  /** A Go pointer field: `None` is nil. */
  datatype Option<+T> = None | Some(value: T) {
    /** `o.Or(fallback)`: keep `o` when it is set, otherwise the fallback. */
    function Or(fallback: Option<T>): Option<T> {
      if Some? then this else fallback
    }
  }

  /**
   * A presence marker. The device encodes an enabled toggle as a key whose value
   * carries no information: `models.ExplicitNull` (a raw JSON null) or
   * `models.CiscoEnabled`. Only the presence of the key is ever inspected on read.
   */
  datatype Marker = ExplicitNull | CiscoEnabled

  /** Which CRUD step reported an error (`error creating ...`, `error retrieving ...`). */
  datatype Step = Creating | Retrieving | Updating | Deleting

  /**
   * What a CRUD callback returns. `NoError` is an empty `diag.Diagnostics`; `Errorf`
   * is one `diag.Errorf` naming the step and the remote object; `Panic` stands for a
   * Go runtime panic (nil dereference, failed type assertion), which ends the process.
   */
  datatype Diagnostics = NoError | Errorf(step: Step, object: string) | Panic(reason: string)
}
