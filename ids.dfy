/**
 * Identifiers as produced by the identifier generator: a namespace prefix
 * ("CUS", "ACC", "TX"), a dash, and ten upper-case hexadecimal characters
 * taken from a random UUID. The random part is an input of the model.
 */
module Ids {

  predicate IsUpperHexDigit(c: char) {
    '0' <= c <= '9' || 'A' <= c <= 'F'
  }

  /** What the generator can put after the dash. */
  predicate IsGeneratedSuffix(s: string) {
    |s| == 10 && forall i :: 0 <= i < |s| ==> IsUpperHexDigit(s[i])
  }

  const CustomerPrefix := "CUS"
  const AccountPrefix := "ACC"
  const TransactionPrefix := "TX"

  /** The identifier the generator returns for `prefix` when its random part is `suffix`. */
  function NewId(prefix: string, suffix: string): (id: string)
    requires IsGeneratedSuffix(suffix)
    ensures |id| == |prefix| + 11
    ensures id[..|prefix|] == prefix && id[|prefix|] == '-'
    ensures id[|prefix| + 1..] == suffix
  {
    prefix + "-" + suffix
  }

  /** Within one namespace, different random parts give different identifiers. */
  lemma NewIdInjective(prefix: string, s1: string, s2: string)
    requires IsGeneratedSuffix(s1) && IsGeneratedSuffix(s2)
    ensures NewId(prefix, s1) == NewId(prefix, s2) <==> s1 == s2
  {
    if NewId(prefix, s1) == NewId(prefix, s2) {
      assert s1 == NewId(prefix, s1)[|prefix| + 1..];
    }
  }

  /** Two different dash-free prefixes never produce the same identifier. */
  lemma {:induction false} PrefixesSeparateNamespaces(p1: string, p2: string, s1: string, s2: string)
    requires IsGeneratedSuffix(s1) && IsGeneratedSuffix(s2)
    requires p1 != p2
    requires '-' !in p1 && '-' !in p2
    ensures NewId(p1, s1) != NewId(p2, s2)
  {
    var id1, id2 := NewId(p1, s1), NewId(p2, s2);
    if |p1| < |p2| {
      // id1 has its dash where id2 still holds a prefix character
      assert id1[|p1|] == '-';
      assert id2[|p1|] == p2[|p1|];
      assert p2[|p1|] in p2;
    } else if |p2| < |p1| {
      assert id2[|p2|] == '-';
      assert id1[|p2|] == p1[|p2|];
      assert p1[|p2|] in p1;
    } else {
      var i :| 0 <= i < |p1| && p1[i] != p2[i];
      assert id1[i] == p1[i] && id2[i] == p2[i];
    }
  }

  /** Customer, account and transaction identifiers live in disjoint
      namespaces. No store mixes them, so nothing depends on this; it records
      that an identifier's prefix alone tells which kind of entity it names. */
  lemma NamespacesDisjoint(s1: string, s2: string)
    requires IsGeneratedSuffix(s1) && IsGeneratedSuffix(s2)
    ensures NewId(CustomerPrefix, s1) != NewId(AccountPrefix, s2)
    ensures NewId(CustomerPrefix, s1) != NewId(TransactionPrefix, s2)
    ensures NewId(AccountPrefix, s1) != NewId(TransactionPrefix, s2)
  {
    PrefixesSeparateNamespaces(CustomerPrefix, AccountPrefix, s1, s2);
    PrefixesSeparateNamespaces(CustomerPrefix, TransactionPrefix, s1, s2);
    PrefixesSeparateNamespaces(AccountPrefix, TransactionPrefix, s1, s2);
  }
}
