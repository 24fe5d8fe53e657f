/** The list model behind the GUI's list of obtained credentials: a growable
    buffer of (sequence, credential, value) rows with append and drop-last,
    and the read accessors a Qt view calls. */
module CredentialList {
  import opened Base
  import opened QtCore
  import ServerDisplayList

  /** `UserRole + 1<<iota` for iota = 0, 1 and 2. */
  const CredentialRole: int := UserRole + 1
  const SequenceRole: int := UserRole + 2
  const ValueRole: int := UserRole + 4

  lemma RolesDistinct()
    ensures CredentialRole != SequenceRole && SequenceRole != ValueRole && CredentialRole != ValueRole
  {
  }

  /** The two list models number their roles from the same base, so their first two roles coincide. */
  lemma RolesShareServerRoleNumbers()
    ensures CredentialRole == ServerDisplayList.IdentifierRole
    ensures SequenceRole == ServerDisplayList.AddressRole
  {
  }

  datatype CredentialListItem = CredentialListItem(sequence: string, credential: string, value: uint64)

  class CredentialListModel {
    var modelData: seq<CredentialListItem>
    /** The notifications sent to attached views, oldest first. */
    var rowChanges: seq<RowChange>

    constructor ()
      ensures modelData == [] && rowChanges == []
    {
      modelData := [];
      rowChanges := [];
    }

    method RowCount() returns (n: int)
      ensures n == |modelData|
    {
      n := |modelData|;
    }

    /** The value a view sees in column `role` of row `row`; out-of-range rows panic in the Go code. */
    method Data(row: int, role: int) returns (v: Variant)
      requires 0 <= row < |modelData|
      ensures role == CredentialRole ==> v == Text(modelData[row].credential)
      ensures role == SequenceRole ==> v == Text(modelData[row].sequence)
      ensures role == ValueRole ==> v == UInt64(modelData[row].value)
      ensures role != CredentialRole && role != SequenceRole && role != ValueRole ==> v == Invalid
    {
      var item := modelData[row];
      if role == CredentialRole {
        v := Text(item.credential);
      } else if role == SequenceRole {
        v := Text(item.sequence);
      } else if role == ValueRole {
        v := UInt64(item.value);
      } else {
        v := Invalid;
      }
    }

    /** Drops the last row; nothing happens on an empty list. */
    method Remove()
      modifies this
      ensures old(modelData) == [] ==> modelData == [] && rowChanges == old(rowChanges)
      ensures old(modelData) != [] ==>
        var n := |old(modelData)|;
        && modelData == old(modelData)[..n - 1]
        && rowChanges == old(rowChanges) + [BeginRemoveRows(n - 1, n - 1), EndRemoveRows]
    {
      if |modelData| == 0 {
        return;
      }
      rowChanges := rowChanges + [BeginRemoveRows(|modelData| - 1, |modelData| - 1)];
      modelData := modelData[..|modelData| - 1];
      rowChanges := rowChanges + [EndRemoveRows];
    }

    /** Appends one row at the end. */
    method AddItem(item: CredentialListItem)
      modifies this
      ensures modelData == old(modelData) + [item]
      ensures rowChanges == old(rowChanges) + [BeginInsertRows(|old(modelData)|, |old(modelData)|), EndInsertRows]
    {
      rowChanges := rowChanges + [BeginInsertRows(|modelData|, |modelData|)];
      modelData := modelData + [item];
      rowChanges := rowChanges + [EndInsertRows];
    }
  }

  /** A view that adds a row and then removes one sees its original rows again. */
  method AddItemThenRemove(m: CredentialListModel, item: CredentialListItem)
    modifies m
    ensures m.modelData == old(m.modelData)
  {
    m.AddItem(item);
    m.Remove();
    assert m.modelData == (old(m.modelData) + [item])[..|old(m.modelData)|];
  }
}
