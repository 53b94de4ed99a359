/** The validation of the example application's item model
    (example/models.go). */
module ExampleItem {
  import opened Wrappers
  import opened Documents

  /** An item: its name and its creation time (0 is the zero time). */
  datatype Item = Item(name: string, createdAt: Time)

  const MissingName := "missing name"
  const MissingTimestamp := "missing timestamp"

  /** example/models.go:46-58: the name is checked first, then the time. */
  function Validate(i: Item): (r: Option<string>)
    ensures r == None <==> |i.name| >= 1 && i.createdAt != 0
    ensures |i.name| < 1 ==> r == Some(MissingName)
    ensures |i.name| >= 1 && i.createdAt == 0 ==> r == Some(MissingTimestamp)
  {
    if |i.name| < 1 then Some(MissingName)
    else if i.createdAt == 0 then Some(MissingTimestamp)
    else None
  }
}
