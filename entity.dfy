/** The domain entity of the system: an item of the hierarchical to-do tree. */
module Entity {
  import opened Base

  /** A point in time, as nanoseconds on a fixed clock; 0 is Go's zero `time.Time`. */
  type Time = int

  const ZeroTime: Time := 0

  /** `24 * time.Hour` in nanoseconds. */
  const Day: int := 24 * 3600 * 1000 * 1000 * 1000

  /** `entity.ItemType`, a Go `int`; values outside the named constants are representable. */
  newtype ItemType = int

  const ItemTypeTask: ItemType := 0
  const ItemTypeProject: ItemType := 1
  const ItemTypeCategory: ItemType := 2

  /** `entity.ItemState`, a Go `int`. */
  newtype ItemState = int

  const ItemStateNormal: ItemState := 0
  const ItemStateCompleted: ItemState := 1

  /** `entity.Item`: a task, project or category; `ParentItemID` links it into the tree
      and `Order` ranks it among its siblings. */
  datatype Item = Item(
    ID: int,
    Title: string,
    Description: string,
    Type: ItemType,
    State: ItemState,
    Due: Time,
    CompletedAt: Time,
    CreatedAt: Time,
    UpdatedAt: Time,
    ParentItemID: int,
    Order: U64)

  /** `entity.Item{}`: every field at its zero value. */
  const ZeroItem: Item := Item(0, "", "", 0, 0, ZeroTime, ZeroTime, ZeroTime, ZeroTime, 0, 0)

  /** The ID of the virtual root of the tree. */
  const RootID: int := 0

  /** The virtual root item; top-level items have it as parent. */
  const RootItem: Item := ZeroItem.(ID := RootID)
}
