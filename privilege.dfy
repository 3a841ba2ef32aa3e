/**
 * Who may delete accounts: a staff row is an administrator when its `is_admin` column is
 * the boolean true, or its role, lower-cased, is "admin" or "administrador". Lower-casing
 * is ASCII-only here.
 */
module Privilege {
  import opened Wrappers
  import opened Store

  /** ASCII lower-casing of one character. */
  function LowerAscii(c: char): char {
    if 'A' <= c <= 'Z' then (c as int + 32) as char else c
  }

  /** ASCII upper-casing of one character. */
  function UpperAscii(c: char): char {
    if 'a' <= c <= 'z' then (c as int - 32) as char else c
  }

  /** `s.toLowerCase()`, restricted to ASCII letters. */
  function ToLowerAscii(s: string): (r: string)
    ensures |r| == |s|
    ensures forall i :: 0 <= i < |s| ==> r[i] == LowerAscii(s[i])
  {
    if s == [] then [] else [LowerAscii(s[0])] + ToLowerAscii(s[1..])
  }

  /** The role as text; a null role reads as the empty string. */
  function RoleText(row: StaffRow): (text: string)
    ensures row.role == None ==> text == ""
    ensures forall r :: row.role == Some(r) ==> text == r
  {
    row.role.GetOr("")
  }


  /** A word made only of lower-case ASCII letters. */
  predicate LowerWord(word: string) {
    forall i :: 0 <= i < |word| ==> 'a' <= word[i] <= 'z'
  }

  /** `s` spells `word` letter by letter, each letter in either case. */
  predicate SpelledAs(s: string, word: string) {
    |s| == |word| && forall i :: 0 <= i < |s| ==> s[i] == word[i] || s[i] == UpperAscii(word[i])
  }

  /** Lower-casing gives a lower-case word exactly when the text spells it in any mix of cases. */
  lemma LowersTo(s: string, word: string)
    requires LowerWord(word)
    ensures ToLowerAscii(s) == word <==> SpelledAs(s, word)
  {
    var low := ToLowerAscii(s);
    if SpelledAs(s, word) {
      forall i | 0 <= i < |s| ensures low[i] == word[i] {
        assert 'a' <= word[i] <= 'z';
      }
    }
  }

  /**
   * The administrator test applied to the caller's staff row: `is_admin` true always
   * suffices, and with a null role nothing else does.
   */
  predicate IsAdmin(row: StaffRow)
    ensures row.isAdmin == Some(true) ==> IsAdmin(row)
    ensures row.role == None ==> (IsAdmin(row) <==> row.isAdmin == Some(true))
  {
    var role := ToLowerAscii(RoleText(row));
    row.isAdmin == Some(true) || role == "admin" || role == "administrador"
  }

  /** An administrator is exactly: `is_admin` true, or a role spelling "admin" or "administrador" in any case. */
  lemma IsAdminExactly(row: StaffRow)
    ensures IsAdmin(row) <==>
      row.isAdmin == Some(true) ||
      SpelledAs(RoleText(row), "admin") ||
      SpelledAs(RoleText(row), "administrador")
  {
    LowersTo(RoleText(row), "admin");
    LowersTo(RoleText(row), "administrador");
  }

  /** A role written "Administrador" passes the case-insensitive comparison. */
  lemma CapitalisedRoleIsAdmin(id: string, flag: Option<bool>)
    ensures IsAdmin(StaffRow(id, flag, Some("Administrador")))
  {
    var role := "Administrador";
    assert UpperAscii('a') == 'A';
    assert SpelledAs(role, "administrador");
    LowersTo(role, "administrador");
  }

  /** A row with `is_admin` false and role "user", or with both columns null, is not an administrator. */
  lemma OrdinaryRowsAreNotAdmin(id: string)
    ensures !IsAdmin(StaffRow(id, Some(false), Some("user")))
    ensures !IsAdmin(StaffRow(id, None, None))
  {
  }
}
