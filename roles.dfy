/**
 * The role predicates of core/views.py (is_admin, is_staff, is_customer,
 * is_admin_or_staff) and the operator gate that guards the back-office
 * views. An account type is compared after Python's strip() and lower().
 */
module Roles {
  import opened Models

  /** The signed-in user as the views see it. `customer` is the linked
      customer profile (the `khachhang` attribute), when there is one. */
  datatype Account = Account(
    authenticated: bool,
    superuser: bool,
    kind: string,               // loai_tk
    customer: Option<int>)

  /** The characters str.strip() removes: those for which str.isspace()
      holds, namely tab to carriage return, the separators 0x1C to 0x1F,
      space, next-line, no-break space and the Unicode space separators. */
  predicate IsSpace(c: char)
  {
    || '\t' <= c <= '\r'
    || '\U{1C}' <= c <= ' '
    || c == '\U{85}' || c == '\U{A0}' || c == '\U{1680}'
    || '\U{2000}' <= c <= '\U{200A}'
    || c == '\U{2028}' || c == '\U{2029}' || c == '\U{202F}' || c == '\U{205F}' || c == '\U{3000}'
  }

  /** Drops leading whitespace. */
  function TrimStart(s: string): (r: string)
  {
    if s != [] && IsSpace(s[0]) then TrimStart(s[1..]) else s
  }

  /** Drops trailing whitespace. */
  function TrimEnd(s: string): (r: string)
  {
    if s != [] && IsSpace(s[|s| - 1]) then TrimEnd(s[..|s| - 1]) else s
  }

  /** str.strip() */
  function Strip(s: string): (r: string)
  {
    TrimEnd(TrimStart(s))
  }

  /** The Kelvin sign, the one character outside A to Z that str.lower()
      turns into ASCII alone ('k'). */
  const Kelvin: char := '\U{212A}'

  /** A capital that str.lower() maps to a single ASCII letter. */
  predicate IsCapital(c: char)
  {
    'A' <= c <= 'Z' || c == Kelvin
  }

  function LowerChar(c: char): (d: char)
    ensures !IsCapital(d)
    ensures !IsCapital(c) ==> d == c
    ensures IsCapital(c) ==> 'a' <= d <= 'z'
    ensures 'A' <= c <= 'Z' ==> d as int == c as int + 32
    ensures c == Kelvin ==> d == 'k'
  {
    if 'A' <= c <= 'Z' then (c as int + 32) as char
    else if c == Kelvin then 'k'
    else c
  }

  /** str.lower() on the capitals that lower to a single ASCII letter; every other
      character is kept. */
  function Lower(s: string): (r: string)
  {
    if s == [] then [] else [LowerChar(s[0])] + Lower(s[1..])
  }

  /** TrimStart removes a whitespace prefix and nothing else: the result is
      a suffix of the input that does not start with whitespace, and all it
      dropped is whitespace. */
  lemma {:induction false} TrimStartSpec(s: string)
    ensures var r := TrimStart(s);
      && |r| <= |s| && r == s[|s| - |r|..]
      && (r == [] || !IsSpace(r[0]))
      && (forall i :: 0 <= i < |s| - |r| ==> IsSpace(s[i]))
  {
    if s != [] && IsSpace(s[0]) {
      var t := s[1..];
      TrimStartSpec(t);
      var r := TrimStart(t);
      assert TrimStart(s) == r;
      assert t[|t| - |r|..] == s[|s| - |r|..];
      forall i | 0 <= i < |s| - |r| ensures IsSpace(s[i]) {
        if i > 0 {
          assert s[i] == t[i - 1];
        }
      }
    }
  }

  /** TrimEnd removes a whitespace suffix and nothing else. */
  lemma {:induction false} TrimEndSpec(s: string)
    ensures var r := TrimEnd(s);
      && |r| <= |s| && r == s[..|r|]
      && (r == [] || !IsSpace(r[|r| - 1]))
      && (forall i :: |r| <= i < |s| ==> IsSpace(s[i]))
  {
    if s != [] && IsSpace(s[|s| - 1]) {
      var t := s[..|s| - 1];
      TrimEndSpec(t);
      var r := TrimEnd(t);
      assert TrimEnd(s) == r;
      assert t[..|r|] == s[..|r|];
      forall i | |r| <= i < |s| ensures IsSpace(s[i]) {
        if i < |s| - 1 {
          assert s[i] == t[i];
        }
      }
    }
  }

  /** Strip keeps the middle of its input between two runs of whitespace:
      a prefix of what TrimStart leaves, neither starting nor ending with
      whitespace. */
  lemma StripSpec(s: string)
    ensures var r := Strip(s);
      && r <= TrimStart(s) && |TrimStart(s)| <= |s|
      && (r == [] || (!IsSpace(r[0]) && !IsSpace(r[|r| - 1])))
  {
    var t := TrimStart(s);
    TrimStartSpec(s);
    TrimEndSpec(t);
  }

  /** Lower maps each character and keeps the length. */
  lemma {:induction false} LowerSpec(s: string)
    ensures |Lower(s)| == |s|
    ensures forall i :: 0 <= i < |s| ==> Lower(s)[i] == LowerChar(s[i])
  {
    if s != [] {
      LowerSpec(s[1..]);
    }
  }

  /** The account type as the role predicates compare it. */
  function Normalized(kind: string): (r: string)
  {
    Lower(Strip(kind))
  }

  /** is_admin */
  predicate IsAdmin(u: Account)
  {
    u.authenticated && (u.superuser || Normalized(u.kind) == "admin")
  }

  /** is_staff */
  predicate IsStaff(u: Account)
  {
    u.authenticated && Normalized(u.kind) == "nhan_vien"
  }

  /** is_customer */
  predicate IsCustomer(u: Account)
  {
    u.authenticated && Normalized(u.kind) == "khach_hang" && u.customer.Some?
  }

  /** is_admin_or_staff */
  predicate IsAdminOrStaff(u: Account)
  {
    IsAdmin(u) || IsStaff(u)
  }

  /** The test every back-office view is decorated with: an authenticated
      account whose normalised type is admin or nhan_vien. */
  predicate OperatorGate(u: Account)
  {
    u.authenticated && (Normalized(u.kind) == "admin" || Normalized(u.kind) == "nhan_vien")
  }

  // ------------------------------------------- what the comparisons accept

  /** Every character of s is whitespace. */
  predicate AllSpace(s: string)
  {
    forall k :: 0 <= k < |s| ==> IsSpace(s[k])
  }

  /** s lowers, character by character, to w. */
  predicate LowersTo(s: string, w: string)
  {
    |s| == |w| && forall k :: 0 <= k < |s| ==> LowerChar(s[k]) == w[k]
  }

  /** The word w in any letter case, with any whitespace on either side:
      the account types that compare equal to w after strip() and lower(). */
  ghost predicate Matches(kind: string, w: string)
  {
    exists i, j :: 0 <= i <= j <= |kind| && AllSpace(kind[..i]) && LowersTo(kind[i..j], w) && AllSpace(kind[j..])
  }

  /** A word to compare with: not empty, and no whitespace at either end. */
  predicate Word(w: string)
  {
    w != [] && !IsSpace(w[0]) && !IsSpace(w[|w| - 1])
  }

  /** TrimStart drops exactly a whitespace prefix that is followed by a
      non-whitespace character or the end. */
  lemma {:induction false} TrimStartPadded(s: string, i: nat)
    requires i <= |s| && AllSpace(s[..i]) && (i == |s| || !IsSpace(s[i]))
    ensures TrimStart(s) == s[i..]
  {
    if i > 0 {
      assert IsSpace(s[..i][0]);
      var t := s[1..];
      var pad, rest := s[..i], t[..i - 1];
      forall k | 0 <= k < |rest|
        ensures IsSpace(rest[k])
      {
        assert rest[k] == pad[k + 1];
      }
      TrimStartPadded(t, i - 1);
      assert t[i - 1..] == s[i..];
    }
  }

  /** TrimEnd drops exactly a whitespace suffix that follows a
      non-whitespace character or the start. */
  lemma {:induction false} TrimEndPadded(s: string, j: nat)
    requires j <= |s| && AllSpace(s[j..]) && (j == 0 || !IsSpace(s[j - 1]))
    ensures TrimEnd(s) == s[..j]
  {
    if j < |s| {
      assert IsSpace(s[j..][|s| - 1 - j]);
      var t := s[..|s| - 1];
      assert forall k :: 0 <= k < |t| - j ==> t[j..][k] == s[j..][k];
      TrimEndPadded(t, j);
      assert t[..j] == s[..j];
    }
  }

  /** An account type normalises to a word exactly when it is that word in
      any letter case, padded with whitespace. */
  lemma NormalizedMatches(kind: string, w: string)
    requires Word(w)
    ensures Normalized(kind) == w <==> Matches(kind, w)
  {
    var t := TrimStart(kind);
    TrimStartSpec(kind);
    var r := TrimEnd(t);
    TrimEndSpec(t);
    LowerSpec(r);
    if Normalized(kind) == w {
      var i := |kind| - |t|;
      var j := i + |r|;
      assert kind[i..j] == r;
      assert forall k :: 0 <= k < |kind| - j ==> kind[j..][k] == t[|r|..][k];
      assert AllSpace(kind[..i]) && LowersTo(kind[i..j], w) && AllSpace(kind[j..]);
    }
    if Matches(kind, w) {
      var i, j :| 0 <= i <= j <= |kind| && AllSpace(kind[..i]) && LowersTo(kind[i..j], w) && AllSpace(kind[j..]);
      MatchedWord(kind, i, j, w);
    }
  }

  /** The backward half of NormalizedMatches, for one padding. */
  lemma MatchedWord(kind: string, i: nat, j: nat, w: string)
    requires Word(w) && i <= j <= |kind|
    requires AllSpace(kind[..i]) && LowersTo(kind[i..j], w) && AllSpace(kind[j..])
    ensures Normalized(kind) == w
  {
    var m := kind[i..j];
    assert LowerChar(m[0]) == w[0] && LowerChar(m[|m| - 1]) == w[|w| - 1];
    TrimStartPadded(kind, i);
    var t := kind[i..];
    assert t[j - i..] == kind[j..];
    TrimEndPadded(t, j - i);
    assert t[..j - i] == m;
    LowerSpec(m);
    assert Lower(m) == w;
  }

  /** is_admin: an authenticated superuser, or an authenticated account
      typed "admin" in any case and padding. */
  lemma AdminMeans(u: Account)
    ensures IsAdmin(u) <==> u.authenticated && (u.superuser || Matches(u.kind, "admin"))
  {
    NormalizedMatches(u.kind, "admin");
  }

  /** is_staff: an authenticated account typed "nhan_vien" in any case and
      padding. */
  lemma StaffMeans(u: Account)
    ensures IsStaff(u) <==> u.authenticated && Matches(u.kind, "nhan_vien")
  {
    NormalizedMatches(u.kind, "nhan_vien");
  }

  /** is_customer: an authenticated account typed "khach_hang" in any case
      and padding, with a customer profile. */
  lemma CustomerMeans(u: Account)
    ensures IsCustomer(u) <==> u.authenticated && Matches(u.kind, "khach_hang") && u.customer.Some?
  {
    NormalizedMatches(u.kind, "khach_hang");
  }

  /** is_admin_or_staff: a superuser, or a type matching either word. */
  lemma AdminOrStaffMeans(u: Account)
    ensures IsAdminOrStaff(u) <==>
      u.authenticated && (u.superuser || Matches(u.kind, "admin") || Matches(u.kind, "nhan_vien"))
  {
    AdminMeans(u);
    StaffMeans(u);
  }

  /** The operator gate: a type matching either word; the superuser flag
      plays no part. */
  lemma GateMeans(u: Account)
    ensures OperatorGate(u) <==> u.authenticated && (Matches(u.kind, "admin") || Matches(u.kind, "nhan_vien"))
  {
    NormalizedMatches(u.kind, "admin");
    NormalizedMatches(u.kind, "nhan_vien");
  }

  /** Lower leaves a string without upper-case letters as it is. */
  lemma {:induction false} LowerFixes(s: string)
    requires forall i :: 0 <= i < |s| ==> !IsCapital(s[i])
    ensures Lower(s) == s
  {
    if s != [] {
      LowerFixes(s[1..]);
    }
  }

  /** Strip leaves a string without surrounding whitespace as it is. */
  lemma StripFixes(s: string)
    requires s == [] || (!IsSpace(s[0]) && !IsSpace(s[|s| - 1]))
    ensures Strip(s) == s
  {
    if s != [] {
      assert TrimStart(s) == s;
      assert TrimEnd(s) == s;
    }
  }

  /** A lower-case type without surrounding whitespace is already normal. */
  lemma NormalizedFixes(s: string)
    requires s == [] || (!IsSpace(s[0]) && !IsSpace(s[|s| - 1]))
    requires forall i :: 0 <= i < |s| ==> 'a' <= s[i] <= 'z' || s[i] == '_'
    ensures Normalized(s) == s
  {
    StripFixes(s);
    LowerFixes(s);
  }

  /** An account typed exactly "admin" or "nhan_vien", the spellings the
      back-office views compare with, passes the operator gate. */
  lemma ExactKindPassesGate(u: Account)
    requires u.authenticated && (u.kind == "admin" || u.kind == "nhan_vien")
    ensures OperatorGate(u)
  {
    if u.kind == "admin" {
      NormalizedFixes(u.kind);
    } else {
      NormalizedFixes(u.kind);
    }
  }

  /** An account typed exactly "khach_hang" with a customer profile is a
      customer. */
  lemma ExactKindIsCustomer(u: Account)
    requires u.authenticated && u.kind == "khach_hang" && u.customer.Some?
    ensures IsCustomer(u)
  {
    NormalizedFixes(u.kind);
  }

  /** Staff and customers are disjoint roles, and an account can be admin
      and staff at once only through the superuser flag. */
  lemma RolesDisjoint(u: Account)
    ensures IsStaff(u) ==> !IsCustomer(u)
    ensures IsAdmin(u) && IsStaff(u) ==> u.superuser
    ensures !u.authenticated ==> !IsAdmin(u) && !IsStaff(u) && !IsCustomer(u) && !OperatorGate(u)
  {
  }

  /** The gate admits exactly the admins and staff that are not admins
      only by being superusers. */
  lemma GateIsAdminOrStaff(u: Account)
    ensures OperatorGate(u) ==> IsAdminOrStaff(u)
    ensures IsAdminOrStaff(u) && (u.superuser ==> Normalized(u.kind) == "admin" || Normalized(u.kind) == "nhan_vien") ==> OperatorGate(u)
  {
  }

  lemma StripOneLeadingSpace(s: string)
    requires s == " Admin"
    ensures Strip(s) == s[1..]
  {
    var t := s[1..];
    assert s[0] == ' ';
    assert TrimStart(s) == TrimStart(t);
    assert t[0] == 'A' && t[|t| - 1] == 'n';
    StripFixes(t);
  }

  lemma LowerCapitalised(t: string)
    requires t == "Admin"
    ensures Lower(t) == "admin"
  {
    var rest := t[1..];
    assert Lower(t) == [LowerChar(t[0])] + Lower(rest);
    LowerFixes(rest);
  }

  /** An account typed " Admin" passes the normalised gate and is_admin,
      although the back-office views compare the raw type with "admin" and
      "nhan_vien" and so treat it as neither. */
  lemma PaddedKindPassesGate(u: Account)
    requires u.authenticated && u.kind == " Admin"
    ensures OperatorGate(u) && IsAdmin(u)
    ensures u.kind != "admin" && u.kind != "nhan_vien"
  {
    StripOneLeadingSpace(u.kind);
    LowerCapitalised(u.kind[1..]);
  }

  /** The information separators count as whitespace for strip(): an
      account typed "\x1cadmin" is an admin and passes the gate. */
  lemma SeparatorPaddedKindPassesGate(u: Account)
    requires u.authenticated && u.kind == "\U{1C}admin"
    ensures OperatorGate(u) && IsAdmin(u)
  {
    var t := u.kind[1..];
    assert IsSpace(u.kind[0]);
    assert TrimStart(u.kind) == TrimStart(t);
    assert t == "admin";
    NormalizedFixes(t);
  }

  /** Lower of a string whose only capital is its first character lowers
      that character alone. */
  lemma LowerHead(s: string)
    requires s != [] && forall i :: 1 <= i < |s| ==> !IsCapital(s[i])
    ensures Lower(s) == [LowerChar(s[0])] + s[1..]
  {
    LowerFixes(s[1..]);
  }

  /** lower() turns the Kelvin sign into 'k': an account typed with it in
      place of the first letter of "khach_hang" is a customer. */
  lemma KelvinKindIsCustomer(u: Account)
    requires u.authenticated && u.kind == "\U{212A}hach_hang" && u.customer.Some?
    ensures IsCustomer(u)
  {
    var s := u.kind;
    assert s[0] == Kelvin && s[|s| - 1] == 'g';
    StripFixes(s);
    assert s[1..] == "hach_hang";
    LowerHead(s);
  }
}
