/** The list model behind the GUI's list of validator servers: a growable
    buffer of (identifier, address) rows with append, drop-last and
    overwrite-last operations, and the read accessors a Qt view calls. */
module ServerDisplayList {
  import opened QtCore

  /** `UserRole + 1<<iota` for iota = 0 and 1. */
  const IdentifierRole: int := UserRole + 1
  const AddressRole: int := UserRole + 2

  lemma RolesDistinct()
    ensures IdentifierRole != AddressRole
  {
  }

  datatype ServerListItem = ServerListItem(identifier: string, address: string)

  class ServerDisplayListModel {
    var modelData: seq<ServerListItem>
    /** The notifications sent to attached views, oldest first. */
    var rowChanges: seq<RowChange>

    constructor ()
      ensures modelData == [] && rowChanges == []
    {
      modelData := [];
      rowChanges := [];
    }

    method RowCount() returns (n: int)
      ensures n == |modelData|
    {
      n := |modelData|;
    }

    /** The value a view sees in column `role` of row `row`; out-of-range rows panic in the Go code. */
    method Data(row: int, role: int) returns (v: Variant)
      requires 0 <= row < |modelData|
      ensures role == IdentifierRole ==> v == Text(modelData[row].identifier)
      ensures role == AddressRole ==> v == Text(modelData[row].address)
      ensures role != IdentifierRole && role != AddressRole ==> v == Invalid
    {
      var item := modelData[row];
      if role == IdentifierRole {
        v := Text(item.identifier);
      } else if role == AddressRole {
        v := Text(item.address);
      } else {
        v := Invalid;
      }
    }

    /** Drops the last row; nothing happens on an empty list. */
    method Remove()
      modifies this
      ensures old(modelData) == [] ==> modelData == [] && rowChanges == old(rowChanges)
      ensures old(modelData) != [] ==>
        var n := |old(modelData)|;
        && modelData == old(modelData)[..n - 1]
        && rowChanges == old(rowChanges) + [BeginRemoveRows(n - 1, n - 1), EndRemoveRows]
    {
      if |modelData| == 0 {
        return;
      }
      rowChanges := rowChanges + [BeginRemoveRows(|modelData| - 1, |modelData| - 1)];
      modelData := modelData[..|modelData| - 1];
      rowChanges := rowChanges + [EndRemoveRows];
    }

    /** Appends a row built from exactly two variants; any other count is refused. */
    method Add(item: seq<Variant>)
      modifies this
      ensures |item| != 2 ==> modelData == old(modelData) && rowChanges == old(rowChanges)
      ensures |item| == 2 ==>
        var n := |old(modelData)|;
        && modelData == old(modelData) + [ServerListItem(ToString(item[0]), ToString(item[1]))]
        && rowChanges == old(rowChanges) + [BeginInsertRows(n, n), EndInsertRows]
    {
      if |item| != 2 {
        return;
      }
      rowChanges := rowChanges + [BeginInsertRows(|modelData|, |modelData|)];
      modelData := modelData + [ServerListItem(ToString(item[0]), ToString(item[1]))];
      rowChanges := rowChanges + [EndInsertRows];
    }

    /** Overwrites the last row; nothing happens on an empty list. */
    method Edit(identifier: string, address: string)
      modifies this
      ensures old(modelData) == [] ==> modelData == [] && rowChanges == old(rowChanges)
      ensures old(modelData) != [] ==>
        var n := |old(modelData)|;
        && |modelData| == n
        && modelData[..n - 1] == old(modelData)[..n - 1]
        && modelData[n - 1] == ServerListItem(identifier, address)
        && rowChanges == old(rowChanges) + [DataChanged(n - 1, n - 1, [DisplayRole])]
    {
      if |modelData| == 0 {
        return;
      }
      var last := |modelData| - 1;
      modelData := modelData[last := ServerListItem(identifier, address)];
      rowChanges := rowChanges + [DataChanged(last, last, [DisplayRole])];
    }
  }
}
