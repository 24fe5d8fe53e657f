/** The slice of Qt's core module the list models use: variants, the role
    numbering and the row-change notifications a list model sends to its views. */
module QtCore {
  import opened Base
  import Strconv

  /** `Qt::DisplayRole`. */
  const DisplayRole: int := 0

  /** `Qt::UserRole`, the first role number free for application use. */
  const UserRole: int := 0x0100

  /** A `QVariant` holding nothing, a string or an unsigned 64-bit integer. */
  datatype Variant = Invalid | Text(text: string) | UInt64(number: uint64)

  /** `QVariant::toString`. */
  function ToString(v: Variant): string {
    match v
    case Invalid => ""
    case Text(text) => text
    case UInt64(number) => Strconv.FormatUint(number)
  }

  /** The notifications of `QAbstractListModel` that bracket a change of rows. */
  datatype RowChange =
    | BeginInsertRows(first: int, last: int)
    | EndInsertRows
    | BeginRemoveRows(first: int, last: int)
    | EndRemoveRows
    | DataChanged(topLeft: int, bottomRight: int, roles: seq<int>)
}
