/** Optional values: a column that may be null, an environment variable that may be unset. */
module Wrappers {

  datatype Option<+T> = None | Some(value: T) {

    /** The value, or `default` when there is none (the `??` operator). */
    function GetOr(default: T): T {
      match this
      case Some(v) => v
      case None => default
    }
  }
}

/**
 * The rows the account-deletion handler touches, and row deletion by filter.
 * The platform keeps three tables (`perfil`, `device_authorizations`, `staff`) and a
 * set of authentication identities; a table is a sequence of rows.
 */
module Store {
  import opened Wrappers

  /** A profile row; it refers to an account by its own `id` or by its `user_id` column. */
  datatype PerfilRow = PerfilRow(id: string, userId: Option<string>)

  /** A device authorization; `staff_id` names the account it belongs to. */
  datatype DeviceAuthorization = DeviceAuthorization(id: string, staffId: Option<string>)

  /** A privilege-directory row, keyed by the account id; `is_admin` and `role` may be null. */
  datatype StaffRow = StaffRow(id: string, isAdmin: Option<bool>, role: Option<string>)

  /** What the platform holds, as one value. */
  datatype Snapshot = Snapshot(
    perfil: seq<PerfilRow>,
    deviceAuthorizations: seq<DeviceAuthorization>,
    staff: seq<StaffRow>,
    identities: set<string>)

  /** The filter `id.eq.<target>,user_id.eq.<target>` of the profile delete. */
  predicate PerfilMatches(row: PerfilRow, target: string) {
    row.id == target || row.userId == Some(target)
  }

  /** The filter `staff_id = <target>` of the device-authorization delete. */
  predicate DeviceMatches(row: DeviceAuthorization, target: string) {
    row.staffId == Some(target)
  }

  /** The filter `id = <target>` of the staff delete. */
  predicate StaffMatches(row: StaffRow, target: string) {
    row.id == target
  }

  /**
   * The rows that survive `DELETE ... WHERE drop(row)`: every row the filter selects is
   * gone, every other row keeps its multiplicity.
   */
  function Without<T(==,!new)>(rows: seq<T>, drop: T -> bool): (kept: seq<T>)
    ensures forall x :: multiset(kept)[x] == if drop(x) then 0 else multiset(rows)[x]
    ensures |kept| <= |rows|
  {
    if rows == [] then []
    else
      assert rows == [rows[0]] + rows[1..];
      var rest := Without(rows[1..], drop);
      if drop(rows[0]) then rest else [rows[0]] + rest
  }

  /** Deleting with a filter that selects no row leaves the table as it was. */
  lemma {:induction false} WithoutNothingSelected<T(!new)>(rows: seq<T>, drop: T -> bool)
    requires forall x :: x in rows ==> !drop(x)
    ensures Without(rows, drop) == rows
  {
    if rows != [] {
      assert rows[0] in rows;
      forall x | x in rows[1..] ensures !drop(x) {
        assert x in rows;
      }
      WithoutNothingSelected(rows[1..], drop);
    }
  }

  /** Repeating the same delete removes nothing more. */
  lemma WithoutIdempotent<T(!new)>(rows: seq<T>, drop: T -> bool)
    ensures Without(Without(rows, drop), drop) == Without(rows, drop)
  {
    var kept := Without(rows, drop);
    forall x | x in kept ensures !drop(x) {
      assert multiset(kept)[x] > 0;
    }
    WithoutNothingSelected(kept, drop);
  }

  /** The profile table after the cascade's first delete. */
  function PerfilWithout(rows: seq<PerfilRow>, target: string): (kept: seq<PerfilRow>)
    ensures forall r :: multiset(kept)[r] == if PerfilMatches(r, target) then 0 else multiset(rows)[r]
  {
    Without(rows, r => PerfilMatches(r, target))
  }

  /** The device-authorization table after the cascade's second delete. */
  function DevicesWithout(rows: seq<DeviceAuthorization>, target: string): (kept: seq<DeviceAuthorization>)
    ensures forall r :: multiset(kept)[r] == if DeviceMatches(r, target) then 0 else multiset(rows)[r]
  {
    Without(rows, r => DeviceMatches(r, target))
  }

  /** The staff table after the cascade's third delete. */
  function StaffWithout(rows: seq<StaffRow>, target: string): (kept: seq<StaffRow>)
    ensures forall r :: multiset(kept)[r] == if StaffMatches(r, target) then 0 else multiset(rows)[r]
  {
    Without(rows, r => StaffMatches(r, target))
  }

  /** After the three deletes for `target`, no row of any table refers to `target`. */
  predicate NoRowRefersTo(t: Snapshot, target: string) {
    (forall r :: r in t.perfil ==> !PerfilMatches(r, target)) &&
    (forall r :: r in t.deviceAuthorizations ==> !DeviceMatches(r, target)) &&
    (forall r :: r in t.staff ==> !StaffMatches(r, target))
  }
}
