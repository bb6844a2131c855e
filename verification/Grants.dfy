/** Who a document is shared with, from the upload's list to the rows of the grant
    table: internal/document/upload.go and internal/repository/postgres/documents.go. */
module Grants {

  function Logins(s: seq<string>): set<string> { set x | x in s }

  predicate NoDuplicates(s: seq<string>) { forall i, j :: 0 <= i < j < |s| ==> s[i] != s[j] }

  /** First occurrences, in order, of what is not dropped. */
  function Uniques(s: seq<string>, drop: set<string>): seq<string> {
    if s == [] then []
    else
      var before := Uniques(s[..|s| - 1], drop);
      var login := s[|s| - 1];
      if login in drop || login in before then before else before + [login]
  }

  function FirstAt(s: seq<string>, login: string): (i: nat)
    ensures i <= |s| && (i < |s| ==> s[i] == login) && (login in s ==> i < |s|)
    ensures forall j :: 0 <= j < i ==> s[j] != login
  {
    if s == [] then 0 else if s[0] == login then 0 else FirstAt(s[1..], login) + 1
  }

  lemma FirstAtPrefix(s: seq<string>, n: nat, login: string)
    requires n <= |s| && login in s[..n]
    ensures FirstAt(s, login) == FirstAt(s[..n], login) < n
  {
    var i, k := FirstAt(s, login), FirstAt(s[..n], login);
    assert s[..n][k] == login && s[k] == login;
    assert forall j :: 0 <= j < n ==> s[..n][j] == s[j];
  }

  /** The logins that remain: each once, none dropped, in the order of their first
      occurrence. These three leave only one sequence. */
  lemma {:induction false} UniquesFacts(s: seq<string>, drop: set<string>)
    ensures var r := Uniques(s, drop);
      && NoDuplicates(r) && Logins(r) == Logins(s) - drop
      && forall i, j :: 0 <= i < j < |r| ==> FirstAt(s, r[i]) < FirstAt(s, r[j])
  {
    if s != [] {
      var n := |s| - 1;
      var before, r, login := Uniques(s[..n], drop), Uniques(s, drop), s[n];
      UniquesFacts(s[..n], drop);
      assert s == s[..n] + [login];
      forall x | x in before ensures FirstAt(s, x) == FirstAt(s[..n], x) < n {
        assert x in Logins(before);
        FirstAtPrefix(s, n, x);
      }
      assert Logins(s) == Logins(s[..n]) + {login};
      assert Logins(before + [login]) == Logins(before) + {login};
      assert login in before ==> login in Logins(before);
      assert Logins(r) == Logins(s) - drop;
      if login !in drop && login !in before {
        assert login !in Logins(before) && login !in s[..n];
        assert FirstAt(s, login) == n && r == before + [login];
      } else {
        assert r == before;
      }
    }
  }

  method UniqueGrants(input: seq<string>, owner: string) returns (result: seq<string>)
    ensures result == Uniques(input, {owner})
  {
    var seen: set<string> := {};
    result := [];
    for i := 0 to |input|
      invariant result == Uniques(input[..i], {owner}) && seen == Logins(result)
    {
      var login := input[i];
      assert input[..i + 1][..i] == input[..i];
      if login == owner { continue; }
      if login in seen { continue; }
      seen := seen + {login};
      result := result + [login];
    }
    assert input[..|input|] == input;
  }

  /** The repository's own pass, which also drops empty logins. */
  method UniqueNonOwnerLogins(logins: seq<string>, owner: string) returns (result: seq<string>)
    ensures result == Uniques(logins, {"", owner})
  {
    var seen: set<string> := {};
    result := [];
    for i := 0 to |logins|
      invariant result == Uniques(logins[..i], {"", owner}) && seen == Logins(result)
    {
      var login := logins[i];
      assert logins[..i + 1][..i] == logins[..i];
      if login == "" || login == owner { continue; }
      if login in seen { continue; }
      seen := seen + {login};
      result := result + [login];
    }
    assert logins[..|logins|] == logins;
  }

  /** Lengths, and one direction of inclusion. */
  method SameLoginSet(want: seq<string>, got: seq<string>) returns (same: bool)
    ensures same <==> |want| == |got| && Logins(want) <= Logins(got)
  {
    if |want| != |got| { return false; }
    var known: set<string> := {};
    for i := 0 to |got|
      invariant known == Logins(got[..i])
    {
      assert got[..i + 1] == got[..i] + [got[i]];
      known := known + {got[i]};
    }
    assert got[..|got|] == got;
    for i := 0 to |want|
      invariant forall k :: 0 <= k < i ==> want[k] in known
    {
      if want[i] !in known {
        assert want[i] in Logins(want);
        return false;
      }
    }
    return true;
  }

  // ---------------------------------------------------------------- counting

  lemma {:induction false} DistinctSize(s: seq<string>)
    ensures |Logins(s)| <= |s|
    ensures |Logins(s)| == |s| <==> NoDuplicates(s)
  {
    if s != [] {
      var most, last := s[..|s| - 1], s[|s| - 1];
      DistinctSize(most);
      assert s == most + [last] && Logins(s) == Logins(most) + {last};
      if last in most {
        assert Logins(s) == Logins(most);
        var i :| 0 <= i < |most| && most[i] == last;
        assert s[i] == s[|s| - 1];
      } else {
        assert |Logins(s)| == |Logins(most)| + 1;
      }
    }
  }

  lemma {:induction false} SubsetSize(a: set<string>, b: set<string>)
    requires a <= b
    ensures |a| <= |b| && (|a| == |b| ==> a == b)
  {
    if a != {} {
      var x :| x in a;
      SubsetSize(a - {x}, b - {x});
    }
  }

  /** On a list without duplicates the one-sided check is full equality, and what was
      found has no duplicates either. */
  lemma SameLoginSetIsEquality(want: seq<string>, got: seq<string>)
    requires NoDuplicates(want)
    ensures (|want| == |got| && Logins(want) <= Logins(got)) <==> (Logins(want) == Logins(got) && NoDuplicates(got))
  {
    DistinctSize(want);
    DistinctSize(got);
    if Logins(want) <= Logins(got) { SubsetSize(Logins(want), Logins(got)); }
  }

  lemma {:induction false} NothingToDrop(s: seq<string>, drop: set<string>)
    requires NoDuplicates(s) && Logins(s) !! drop
    ensures Uniques(s, drop) == s
  {
    if s != [] {
      var n := |s| - 1;
      assert s == s[..n] + [s[n]];
      assert s[n] in Logins(s);
      forall x | x in s[..n] ensures x in Logins(s) {}
      assert Logins(s[..n]) !! drop;
      NothingToDrop(s[..n], drop);
    }
  }

  /** From the upload to the rows: `found` is what the lookup returned for the grants,
      every existing login once. The upload goes on exactly when all grantees other
      than the owner exist; the repository's pass then changes nothing; and its count
      of inserted rows is what it expects exactly when they still exist. */
  lemma GrantsEndToEnd(input: seq<string>, owner: string, users: set<string>, found: seq<string>, later: set<string>)
    requires var grants := Uniques(input, {owner}); NoDuplicates(found) && Logins(found) == Logins(grants) * users
    requires "" !in users
    ensures var grants := Uniques(input, {owner});
      var accepted := |grants| == |found| && Logins(grants) <= Logins(found);
      && (accepted <==> Logins(input) - {owner} <= users)
      && (accepted ==> Uniques(grants, {"", owner}) == grants)
      && (|Logins(grants) * later| == |grants| <==> Logins(input) - {owner} <= later)
  {
    var grants := Uniques(input, {owner});
    UniquesFacts(input, {owner});
    SameLoginSetIsEquality(grants, found);
    DistinctSize(grants);
    if Logins(grants) <= users { NothingToDrop(grants, {"", owner}); }
    SubsetSize(Logins(grants) * later, Logins(grants));
    if Logins(grants) <= later { assert Logins(grants) * later == Logins(grants); }
  }

  /** The repository's pass is the identity on the upload's list exactly when no
      grantee is the empty login. */
  lemma SecondPassIdentity(input: seq<string>, owner: string)
    ensures Uniques(Uniques(input, {owner}), {"", owner}) == Uniques(input, {owner}) <==> owner == "" || "" !in input
  {
    var grants := Uniques(input, {owner});
    UniquesFacts(input, {owner});
    UniquesFacts(grants, {"", owner});
    if owner == "" || "" !in input {
      assert Logins(grants) !! {"", owner};
      NothingToDrop(grants, {"", owner});
    } else {
      assert "" in Logins(input) && "" in Logins(grants);
    }
  }
}
